/**
 The account-wide environment store: a settings file holding a list of named
 values, read, normalized and rewritten on every change. Values are byte strings.
*/
module AccountEnv {
  import opened Options
  import opened GoText

  type Byte = b: int | 0 <= b < 256

  const MAX_FILE_BYTES := 256 * 1024
  const MAX_ENV_VARS := 128
  const MAX_VALUE_LEN := 32 * 1024

  datatype Entry = Entry(name: string, value: seq<Byte>, updatedAt: string)

  /** The settings file. `Stored` is one that decodes to a list of entries. */
  datatype File = Missing | Stored(env: seq<Entry>, bytes: nat) | Unreadable

  datatype Outcome = Saved | BadName | ValueTooLong | CannotRead | TooMany | TooBig | CannotWrite

  // ---- Names ----

  predicate NameStart(c: char) {
    'A' <= c <= 'Z' || 'a' <= c <= 'z' || c == '_'
  }

  predicate NameChar(c: char) {
    NameStart(c) || '0' <= c <= '9'
  }

  predicate ValidName(name: string) {
    name != "" && NameStart(name[0]) && forall i :: 0 <= i < |name| ==> NameChar(name[i])
  }

  function NormalizeName(raw: string): (r: Option<string>)
    ensures r.Some? ==> ValidName(r.value)
  {
    var name := TrimSpace(raw);
    if ValidName(name) then Some(name) else None
  }

  lemma ValidNamesStay(name: string)
    requires ValidName(name)
    ensures NormalizeName(name) == Some(name)
  {
    assert NameChar(name[0]) && NameChar(name[|name| - 1]);
    assert Trimmed(name);
  }

  /** A name is read as a valid name exactly when it is that name with white space around
      it. */
  lemma NormalizeNameIff(raw: string, name: string)
    ensures NormalizeName(raw) == Some(name) <==>
            ValidName(name) && exists left, right :: raw == left + name + right && AllSpace(left) && AllSpace(right)
  {
    if ValidName(name) {
      assert NameChar(name[0]) && NameChar(name[|name| - 1]);
      if left, right :| raw == left + name + right && AllSpace(left) && AllSpace(right) {
        TrimPadded(left, name, right);
      }
    }
    var left, right := TrimSplits(raw);
  }

  // ---- Normalizing ----

  function Capped(value: seq<Byte>): seq<Byte> {
    if |value| > MAX_VALUE_LEN then value[..MAX_VALUE_LEN] else value
  }

  /** One entry with its name trimmed and its value capped; None for a bad name. */
  function Tidied(entry: Entry): Option<Entry> {
    match NormalizeName(entry.name)
    case None => None
    case Some(name) => Some(Entry(name, Capped(entry.value), entry.updatedAt))
  }

  predicate HasName(env: seq<Entry>, name: string) {
    exists i :: 0 <= i < |env| && env[i].name == name
  }

  /** What the in-place filter leaves. */
  function Normalized(env: seq<Entry>): (r: seq<Entry>)
    ensures |r| <= |env|
  {
    if env == [] then []
    else
      var kept := Normalized(env[..|env| - 1]);
      match Tidied(env[|env| - 1])
      case None => kept
      case Some(entry) => if HasName(kept, entry.name) then kept else kept + [entry]
  }

  ghost predicate UniqueNames(env: seq<Entry>) {
    forall i, j :: 0 <= i < j < |env| ==> env[i].name != env[j].name
  }

  predicate TidyEntry(entry: Entry) {
    ValidName(entry.name) && |entry.value| <= MAX_VALUE_LEN
  }

  /** Unique valid names, and values within the cap. */
  ghost predicate Tidy(env: seq<Entry>) {
    UniqueNames(env) && forall entry <- env :: TidyEntry(entry)
  }

  lemma {:induction false} NormalizedIsTidy(env: seq<Entry>)
    ensures Tidy(Normalized(env))
  {
    if env != [] {
      NormalizedIsTidy(env[..|env| - 1]);
    }
  }

  /** A list is left alone exactly when it is tidy, so normalizing twice does no more
      than normalizing once. */
  lemma {:induction false} TidyIffNormal(env: seq<Entry>)
    ensures Normalized(env) == env <==> Tidy(env)
  {
    NormalizedIsTidy(env);
    if env != [] && Tidy(env) {
      var init, last := env[..|env| - 1], env[|env| - 1];
      assert env == init + [last];
      assert TidyEntry(last) && Tidy(init);
      TidyIffNormal(init);
      ValidNamesStay(last.name);
    }
  }

  lemma NormalizingTwice(env: seq<Entry>)
    ensures Normalized(Normalized(env)) == Normalized(env)
  {
    NormalizedIsTidy(env);
    TidyIffNormal(Normalized(env));
  }

  /** The first entry in the file whose name, once trimmed, is the given one. */
  function FirstDefinition(env: seq<Entry>, name: string): Option<Entry> {
    if env == [] then None
    else if NormalizeName(env[0].name) == Some(name) then Tidied(env[0])
    else FirstDefinition(env[1..], name)
  }

  function Lookup(env: seq<Entry>, name: string): (r: Option<Entry>)
    ensures r.Some? <==> HasName(env, name)
    ensures r.Some? ==> r.value in env && r.value.name == name
  {
    if env == [] then None
    else if env[0].name == name then Some(env[0])
    else
      assert forall i :: 1 <= i < |env| ==> env[i] == env[1..][i - 1];
      Lookup(env[1..], name)
  }

  lemma {:induction false} LookupAppended(env: seq<Entry>, entry: Entry, name: string)
    ensures Lookup(env + [entry], name)
         == if HasName(env, name) then Lookup(env, name)
            else if entry.name == name then Some(entry) else None
  {
    if env != [] {
      assert (env + [entry])[1..] == env[1..] + [entry];
      LookupAppended(env[1..], entry, name);
    }
  }

  lemma {:induction false} FirstDefinitionAppended(env: seq<Entry>, entry: Entry, name: string)
    ensures FirstDefinition(env + [entry], name)
         == if FirstDefinition(env, name).Some? then FirstDefinition(env, name)
            else if NormalizeName(entry.name) == Some(name) then Tidied(entry) else None
  {
    if env != [] {
      assert (env + [entry])[1..] == env[1..] + [entry];
      FirstDefinitionAppended(env[1..], entry, name);
    } else {
      assert env + [entry] == [entry];
    }
  }

  /** Every name keeps its first entry. */
  lemma {:induction false} FirstEntryWins(env: seq<Entry>, name: string)
    ensures Lookup(Normalized(env), name) == FirstDefinition(env, name)
  {
    if env != [] {
      var init, last := env[..|env| - 1], env[|env| - 1];
      assert env == init + [last];
      FirstEntryWins(init, name);
      FirstDefinitionAppended(init, last, name);
      if Tidied(last).Some? {
        LookupAppended(Normalized(init), Tidied(last).value, name);
      }
    }
  }

  /** What is kept of the first entry of a name: all of it, but for a value over the cap,
      of which the front is kept. */
  lemma FirstEntryIsKept(env: seq<Entry>, i: nat, name: string)
    requires i < |env| && NormalizeName(env[i].name) == Some(name)
    requires forall j :: 0 <= j < i ==> NormalizeName(env[j].name) != Some(name)
    ensures var kept := Lookup(Normalized(env), name);
            && kept.Some? && kept.value.value <= env[i].value && kept.value.updatedAt == env[i].updatedAt
            && |kept.value.value| == if |env[i].value| > 32768 then 32768 else |env[i].value|
  {
    FirstEntryWins(env, name);
    FirstDefinitionAt(env, i, name);
  }

  lemma {:induction false} FirstDefinitionAt(env: seq<Entry>, i: nat, name: string)
    requires i < |env| && NormalizeName(env[i].name) == Some(name)
    requires forall j :: 0 <= j < i ==> NormalizeName(env[j].name) != Some(name)
    ensures FirstDefinition(env, name) == Tidied(env[i])
  {
    if i > 0 {
      FirstDefinitionAt(env[1..], i - 1, name);
    }
  }

  // ---- The filters in place ----

  /** Rewrites the list in its own storage: entries kept move down to the front, and
      none is overwritten before it has been read. */
  method NormalizeInPlace(env: array<Entry>, len: nat) returns (n: nat)
    requires len <= env.Length
    modifies env
    ensures n <= len
    ensures env[..n] == Normalized(old(env[..len]))
  {
    n := 0;
    var seen: set<string> := {};
    ghost var was := env[..len];
    for r := 0 to len
      invariant n <= r
      invariant env[..n] == Normalized(was[..r])
      invariant env[r..len] == was[r..]
      invariant seen == Names(Normalized(was[..r]))
    {
      NormalizedStep(was, r);
      assert env[r..len][1..] == env[r + 1..len];
      var entry := env[r];
      assert entry == env[r..len][0] == was[r];
      var name := NormalizeName(entry.name);
      if name.None? || name.value in seen {
        continue;
      }
      seen := seen + {name.value};
      entry := entry.(name := name.value);
      if |entry.value| > MAX_VALUE_LEN {
        entry := entry.(value := entry.value[..MAX_VALUE_LEN]);
      }
      assert Tidied(was[r]) == Some(entry);
      n := Put(env, n, entry, len, r);
    }
    assert was[..len] == was;
  }

  /** Writes one entry behind those kept so far, at or before the one just read. */
  method Put(env: array<Entry>, n: nat, entry: Entry, len: nat, r: nat) returns (next: nat)
    requires n <= r < len <= env.Length
    modifies env
    ensures next == n + 1
    ensures env[..next] == old(env[..n]) + [entry]
    ensures env[r + 1..len] == old(env[r + 1..len])
  {
    env[n] := entry;
    next := n + 1;
  }

  function Names(env: seq<Entry>): set<string> {
    set entry <- env :: entry.name
  }

  lemma NormalizedStep(was: seq<Entry>, r: nat)
    requires r < |was|
    ensures var kept := Normalized(was[..r]);
            && was[r..][1..] == was[r + 1..]
            && match Tidied(was[r])
               case None => Normalized(was[..r + 1]) == kept
               case Some(entry) =>
                 if entry.name in Names(kept) then Normalized(was[..r + 1]) == kept
                 else && Normalized(was[..r + 1]) == kept + [entry]
                      && Names(Normalized(was[..r + 1])) == Names(kept) + {entry.name}
  {
    assert was[..r + 1][..r] == was[..r];
    var kept := Normalized(was[..r]);
    if Tidied(was[r]).Some? {
      var entry := Tidied(was[r]).value;
      NamesIff(kept, entry.name);
    }
  }

  lemma NamesIff(env: seq<Entry>, name: string)
    ensures name in Names(env) <==> HasName(env, name)
  {
  }

  /** All entries but those of one name. */
  function Without(env: seq<Entry>, name: string): seq<Entry> {
    if env == [] then []
    else
      var kept := Without(env[..|env| - 1], name);
      if env[|env| - 1].name == name then kept else kept + [env[|env| - 1]]
  }

  method RemoveInPlace(env: array<Entry>, len: nat, name: string) returns (n: nat)
    requires len <= env.Length
    modifies env
    ensures n <= len
    ensures env[..n] == Without(old(env[..len]), name)
  {
    n := 0;
    ghost var was := env[..len];
    for r := 0 to len
      invariant n <= r
      invariant env[..n] == Without(was[..r], name)
      invariant env[r..len] == was[r..]
    {
      WithoutStep(was, r, name);
      assert env[r..len][1..] == env[r + 1..len];
      var entry := env[r];
      assert entry == env[r..len][0] == was[r];
      if entry.name == name {
        continue;
      }
      n := Put(env, n, entry, len, r);
    }
    assert was[..len] == was;
  }

  lemma WithoutStep(was: seq<Entry>, r: nat, name: string)
    requires r < |was|
    ensures was[r..][1..] == was[r + 1..]
    ensures Without(was[..r + 1], name)
         == if was[r].name == name then Without(was[..r], name) else Without(was[..r], name) + [was[r]]
  {
    assert was[..r + 1][..r] == was[..r];
  }

  /** Updates the entry of that name, or appends one. */
  function With(env: seq<Entry>, entry: Entry): seq<Entry> {
    if env == [] then [entry]
    else if env[0].name == entry.name then [entry] + env[1..]
    else [env[0]] + With(env[1..], entry)
  }

  lemma {:induction false} WithUpdates(env: seq<Entry>, entry: Entry, i: nat)
    requires i < |env| && env[i].name == entry.name
    requires forall j :: 0 <= j < i ==> env[j].name != entry.name
    ensures With(env, entry) == env[i := entry]
  {
    if i > 0 {
      WithUpdates(env[1..], entry, i - 1);
      assert env[i := entry] == [env[0]] + env[1..][i - 1 := entry];
    }
  }

  lemma {:induction false} WithAppends(env: seq<Entry>, entry: Entry)
    requires !HasName(env, entry.name)
    ensures With(env, entry) == env + [entry]
  {
    if env != [] {
      assert forall i :: 1 <= i < |env| ==> env[i] == env[1..][i - 1];
      WithAppends(env[1..], entry);
    }
  }

  // ---- The store ----

  /** What a read of the file gives. */
  function ReadFrom(file: File): Option<seq<Entry>> {
    match file
    case Missing => Some([])
    case Unreadable => None
    case Stored(env, bytes) => if bytes > MAX_FILE_BYTES then None else Some(Normalized(env))
  }

  /** Writing a list: `size` is the length of its encoding, to which the writer adds
      a line end that the size check does not see. */
  function WriteTo(file: File, env: seq<Entry>, size: seq<Entry> -> nat, writes: bool): (File, Outcome) {
    var tidy := Normalized(env);
    if size(tidy) > MAX_FILE_BYTES then (file, TooBig)
    else if !writes then (file, CannotWrite)
    else (Stored(tidy, size(tidy) + 1), Saved)
  }

  function AfterSet(file: File, rawName: string, value: seq<Byte>, now: string,
                    size: seq<Entry> -> nat, writes: bool): (File, Outcome) {
    var name := NormalizeName(rawName);
    if name.None? then (file, BadName)
    else if |value| > MAX_VALUE_LEN then (file, ValueTooLong)
    else
      var env := ReadFrom(file);
      if env.None? then (file, CannotRead)
      else if !HasName(env.value, name.value) && |env.value| >= MAX_ENV_VARS then (file, TooMany)
      else WriteTo(file, With(env.value, Entry(name.value, value, now)), size, writes)
  }

  function AfterDelete(file: File, rawName: string, size: seq<Entry> -> nat, writes: bool): (File, Outcome) {
    var name := NormalizeName(rawName);
    if name.None? then (file, BadName)
    else
      var env := ReadFrom(file);
      if env.None? then (file, CannotRead)
      else WriteTo(file, Without(env.value, name.value), size, writes)
  }

  /** The file, and the operations that read, change and rewrite it under a lock. */
  class Settings {
    var file: File

    constructor (file: File)
      ensures this.file == file
    {
      this.file := file;
    }

    method Read() returns (env: array<Entry>, n: nat, ok: bool)
      ensures ok <==> ReadFrom(file).Some?
      ensures fresh(env) && n <= env.Length
      ensures ok ==> env[..n] == ReadFrom(file).value
    {
      var entries: seq<Entry> := [];
      ok := true;
      match file {
        case Missing =>
        case Unreadable => ok := false;
        case Stored(stored, bytes) =>
          ok := bytes <= MAX_FILE_BYTES;
          entries := stored;
      }
      env := new Entry[|entries|](i requires 0 <= i < |entries| => entries[i]);
      assert env[..|entries|] == entries;
      n := NormalizeInPlace(env, |entries|);
    }

    method Write(env: array<Entry>, len: nat, size: seq<Entry> -> nat, writes: bool) returns (r: Outcome)
      requires len <= env.Length
      modifies this, env
      ensures (file, r) == WriteTo(old(file), old(env[..len]), size, writes)
    {
      ghost var list := env[..len];
      var n := NormalizeInPlace(env, len);
      var bytes := size(env[..n]);
      assert WriteTo(file, list, size, writes)
          == if bytes > MAX_FILE_BYTES then (file, TooBig)
             else if !writes then (file, CannotWrite)
             else (Stored(env[..n], bytes + 1), Saved);
      if bytes > MAX_FILE_BYTES {
        return TooBig;
      }
      if !writes {
        return CannotWrite;
      }
      file := Stored(env[..n], bytes + 1);
      return Saved;
    }

    method SetEnv(rawName: string, value: seq<Byte>, now: string, size: seq<Entry> -> nat, writes: bool)
      returns (r: Outcome)
      modifies this
      ensures (file, r) == AfterSet(old(file), rawName, value, now, size, writes)
    {
      var name := NormalizeName(rawName);
      if name.None? {
        return BadName;
      }
      if |value| > MAX_VALUE_LEN {
        return ValueTooLong;
      }
      var env, n, ok := Read();
      if !ok {
        return CannotRead;
      }
      ghost var read := env[..n];
      var entry := Entry(name.value, value, now);
      for i := 0 to n
        invariant file == old(file) && env[..n] == read
        invariant forall j :: 0 <= j < i ==> read[j].name != name.value
      {
        if env[i].name != name.value {
          continue;
        }
        WithUpdates(read, entry, i);
        env[i] := entry;
        assert env[..n] == read[i := entry];
        assert HasName(read, name.value);
        r := Write(env, n, size, writes);
        return;
      }
      if n >= MAX_ENV_VARS {
        return TooMany;
      }
      WithAppends(read, entry);
      env, n := Append(env, n, entry);
      r := Write(env, n, size, writes);
    }

    method DeleteEnv(rawName: string, size: seq<Entry> -> nat, writes: bool) returns (r: Outcome)
      modifies this
      ensures (file, r) == AfterDelete(old(file), rawName, size, writes)
    {
      var name := NormalizeName(rawName);
      if name.None? {
        return BadName;
      }
      var env, n, ok := Read();
      if !ok {
        return CannotRead;
      }
      n := RemoveInPlace(env, n, name.value);
      r := Write(env, n, size, writes);
    }
  }

  /** Appends in place when there is room behind the list, else in a larger copy. */
  method Append(env: array<Entry>, len: nat, entry: Entry) returns (longer: array<Entry>, n: nat)
    requires len <= env.Length
    modifies env
    ensures longer == env || fresh(longer)
    ensures n == len + 1 <= longer.Length
    ensures longer[..n] == old(env[..len]) + [entry]
  {
    n := len + 1;
    if len < env.Length {
      env[len] := entry;
      longer := env;
    } else {
      longer := new Entry[n](i reads env requires 0 <= i < n => if i < len then env[i] else entry);
    }
  }

  // ---- One change ----

  lemma {:induction false} LookupWith(env: seq<Entry>, entry: Entry, name: string)
    ensures Lookup(With(env, entry), name) == if name == entry.name then Some(entry) else Lookup(env, name)
  {
    if env != [] && env[0].name != entry.name {
      LookupWith(env[1..], entry, name);
    }
  }

  lemma {:induction false} LookupWithout(env: seq<Entry>, gone: string, name: string)
    ensures Lookup(Without(env, gone), name) == if name == gone then None else Lookup(env, name)
  {
    if env != [] {
      var init, last := env[..|env| - 1], env[|env| - 1];
      assert env == init + [last];
      LookupWithout(init, gone, name);
      LookupAppended(init, last, name);
      LookupAppended(Without(init, gone), last, name);
    }
  }

  /** Setting a name updates its entry where it stands, or adds one at the end. */
  lemma WithCases(env: seq<Entry>, entry: Entry)
    ensures |With(env, entry)| == |env| + if HasName(env, entry.name) then 0 else 1
    ensures Tidy(env) && TidyEntry(entry) ==> Tidy(With(env, entry))
  {
    if HasName(env, entry.name) {
      var i := FirstIndex(env, entry.name);
      WithUpdates(env, entry, i);
    } else {
      WithAppends(env, entry);
    }
  }

  ghost function FirstIndex(env: seq<Entry>, name: string): (i: nat)
    requires HasName(env, name)
    ensures i < |env| && env[i].name == name
    ensures forall j :: 0 <= j < i ==> env[j].name != name
  {
    if env[0].name == name then 0
    else
      assert forall k :: 1 <= k < |env| ==> env[k] == env[1..][k - 1];
      1 + FirstIndex(env[1..], name)
  }

  lemma {:induction false} WithoutMembers(env: seq<Entry>, name: string)
    ensures forall entry :: entry in Without(env, name) <==> entry in env && entry.name != name
  {
    if env != [] {
      assert env == env[..|env| - 1] + [env[|env| - 1]];
      WithoutMembers(env[..|env| - 1], name);
    }
  }

  lemma {:induction false} WithoutIsTidy(env: seq<Entry>, name: string)
    requires Tidy(env)
    ensures Tidy(Without(env, name)) && |Without(env, name)| <= |env|
  {
    if env != [] {
      var init, last := env[..|env| - 1], env[|env| - 1];
      assert Tidy(init);
      WithoutIsTidy(init, name);
      WithoutMembers(init, name);
      forall kept <- Without(init, name) ensures kept.name != last.name {
        var i :| 0 <= i < |init| && init[i] == kept;
      }
      assert TidyEntry(last);
    }
  }

  ghost predicate CanSet(file: File, rawName: string, value: seq<Byte>) {
    && NormalizeName(rawName).Some? && |value| <= MAX_VALUE_LEN && ReadFrom(file).Some?
    && (HasName(ReadFrom(file).value, NormalizeName(rawName).value) || |ReadFrom(file).value| < MAX_ENV_VARS)
  }

  /** A write saves exactly when the list fits and the disk takes it. What is saved is
      the list itself, but one whose encoding fills the limit exactly can no longer be
      read: the line end makes the file one byte too long. */
  lemma WriteIff(file: File, env: seq<Entry>, size: seq<Entry> -> nat, writes: bool)
    requires Tidy(env)
    ensures var (next, r) := WriteTo(file, env, size, writes);
            && (r == Saved <==> size(env) <= MAX_FILE_BYTES && writes)
            && (if r == Saved then next == Stored(env, size(env) + 1) else next == file)
            && (r == Saved ==> ReadFrom(next) == if size(env) < MAX_FILE_BYTES then Some(env) else None)
  {
    TidyIffNormal(env);
  }

  /** The list a read gives is tidy. */
  lemma ReadIsTidy(file: File)
    ensures ReadFrom(file).Some? ==> Tidy(ReadFrom(file).value)
  {
    if file.Stored? {
      NormalizedIsTidy(file.env);
    }
  }

  /** A set that is saved stores its value under its own trimmed name and leaves every
      other name as it was; any other set changes nothing. The list never grows past
      the limit this way, though one that starts out longer stays. */
  lemma SetChangesOnlyItsName(file: File, rawName: string, value: seq<Byte>, now: string,
                              size: seq<Entry> -> nat, writes: bool, other: string)
    ensures var (next, r) := AfterSet(file, rawName, value, now, size, writes);
            if r != Saved then next == file
            else
              && CanSet(file, rawName, value)
              && var name, env := NormalizeName(rawName).value, ReadFrom(file).value;
              && next.Stored? && Tidy(next.env) && next.bytes == size(next.env) + 1
              && Lookup(next.env, other)
                 == (if other == name then Some(Entry(name, value, now)) else Lookup(env, other))
              && (|next.env| <= MAX_ENV_VARS || |next.env| == |env|)
    ensures CanSet(file, rawName, value) && writes
            && size(With(ReadFrom(file).value, Entry(NormalizeName(rawName).value, value, now))) <= MAX_FILE_BYTES
            ==> AfterSet(file, rawName, value, now, size, writes).1 == Saved
  {
    ReadIsTidy(file);
    if CanSet(file, rawName, value) {
      var entry := Entry(NormalizeName(rawName).value, value, now);
      var env := ReadFrom(file).value;
      WithCases(env, entry);
      LookupWith(env, entry, other);
      WriteIff(file, With(env, entry), size, writes);
    }
  }

  lemma DeleteChangesOnlyItsName(file: File, rawName: string, size: seq<Entry> -> nat, writes: bool, other: string)
    ensures var (next, r) := AfterDelete(file, rawName, size, writes);
            if r != Saved then next == file
            else
              && NormalizeName(rawName).Some? && ReadFrom(file).Some?
              && var name, env := NormalizeName(rawName).value, ReadFrom(file).value;
              && next.Stored? && Tidy(next.env) && next.bytes == size(next.env) + 1
              && Lookup(next.env, other) == (if other == name then None else Lookup(env, other))
              && |next.env| <= |env|
  {
    ReadIsTidy(file);
    if NormalizeName(rawName).Some? && ReadFrom(file).Some? {
      var name, env := NormalizeName(rawName).value, ReadFrom(file).value;
      WithoutIsTidy(env, name);
      LookupWithout(env, name, other);
      WriteIff(file, Without(env, name), size, writes);
    }
  }

  // ---- Whole runs ----

  datatype Request =
    | Set(rawName: string, value: seq<Byte>, now: string, writes: bool)
    | Delete(rawName: string, writes: bool)

  function Serve(file: File, request: Request, size: seq<Entry> -> nat): (File, Outcome) {
    match request
    case Set(rawName, value, now, writes) => AfterSet(file, rawName, value, now, size, writes)
    case Delete(rawName, writes) => AfterDelete(file, rawName, size, writes)
  }

  function Run(file: File, requests: seq<Request>, size: seq<Entry> -> nat): File
    decreases |requests|
  {
    if requests == [] then file else Run(Serve(file, requests[0], size).0, requests[1..], size)
  }

  type Env = map<string, seq<Byte>>

  /** The same requests on a map; those that were not saved do nothing. */
  function MapStep(env: Env, request: Request): Env {
    var name := NormalizeName(request.rawName);
    if name.None? then env
    else match request
         case Set(_, value, _, _) => env[name.value := value]
         case Delete(_, _) => env - {name.value}
  }

  function MapRun(file: File, requests: seq<Request>, size: seq<Entry> -> nat, env: Env): Env
    decreases |requests|
  {
    if requests == [] then env
    else
      var (next, r) := Serve(file, requests[0], size);
      MapRun(next, requests[1..], size, if r == Saved then MapStep(env, requests[0]) else env)
  }

  /** A file that can be read holds exactly the map. */
  ghost predicate Holds(file: File, env: Env) {
    ReadFrom(file).Some? ==> forall name :: MapsAlike(ReadFrom(file).value, env, name)
  }

  predicate MapsAlike(list: seq<Entry>, env: Env, name: string) {
    match Lookup(list, name)
    case None => name !in env
    case Some(entry) => name in env && env[name] == entry.value
  }

  lemma ServeRefines(file: File, request: Request, size: seq<Entry> -> nat, env: Env)
    requires Holds(file, env)
    ensures var (next, r) := Serve(file, request, size);
            Holds(next, if r == Saved then MapStep(env, request) else env)
  {
    var (next, r) := Serve(file, request, size);
    if r != Saved {
      SavedOrSame(file, request, size);
    } else if ReadFrom(next).Some? {
      var after := MapStep(env, request);
      forall name ensures MapsAlike(ReadFrom(next).value, after, name) {
        ServeOneName(file, request, size, name);
        assert MapsAlike(ReadFrom(file).value, env, name);
      }
    }
  }

  lemma SavedOrSame(file: File, request: Request, size: seq<Entry> -> nat)
    ensures Serve(file, request, size).1 != Saved ==> Serve(file, request, size).0 == file
    ensures Serve(file, request, size).1 == Saved ==> ReadFrom(file).Some?
  {
  }

  lemma ServeOneName(file: File, request: Request, size: seq<Entry> -> nat, other: string)
    requires Serve(file, request, size).1 == Saved && ReadFrom(Serve(file, request, size).0).Some?
    ensures ReadFrom(file).Some? && NormalizeName(request.rawName).Some?
    ensures var list := ReadFrom(Serve(file, request, size).0).value;
            && Tidy(list)
            && (|list| <= MAX_ENV_VARS || |list| <= |ReadFrom(file).value|)
            && if other != NormalizeName(request.rawName).value then
                 Lookup(list, other) == Lookup(ReadFrom(file).value, other)
               else if request.Delete? then Lookup(list, other) == None
               else Lookup(list, other) == Some(Entry(other, request.value, request.now))
  {
    match request {
      case Set(rawName, value, now, writes) =>
        SetChangesOnlyItsName(file, rawName, value, now, size, writes, other);
      case Delete(rawName, writes) =>
        DeleteChangesOnlyItsName(file, rawName, size, writes, other);
    }
    TidyIffNormal(Serve(file, request, size).0.env);
  }

  /** Over any run of requests from any file, what can be read is the map the saved
      requests make of the first one's entries. */
  lemma {:induction false} RunRefinesMap(file: File, requests: seq<Request>, size: seq<Entry> -> nat, env: Env)
    requires Holds(file, env)
    ensures Holds(Run(file, requests, size), MapRun(file, requests, size, env))
    decreases |requests|
  {
    if requests != [] {
      ServeRefines(file, requests[0], size, env);
      var (next, r) := Serve(file, requests[0], size);
      RunRefinesMap(next, requests[1..], size, if r == Saved then MapStep(env, requests[0]) else env);
    }
  }

  /** Over any run the names stay unique and valid, the values within their cap, and
      the list within its limit or the length it started with. */
  lemma {:induction false} RunKeepsTidy(file: File, requests: seq<Request>, size: seq<Entry> -> nat)
    requires ReadFrom(file).Some? && ReadFrom(Run(file, requests, size)).Some?
    ensures var list := ReadFrom(Run(file, requests, size)).value;
            Tidy(list) && (|list| <= MAX_ENV_VARS || |list| <= |ReadFrom(file).value|)
    decreases |requests|
  {
    ReadIsTidy(file);
    if requests != [] {
      var (next, r) := Serve(file, requests[0], size);
      SavedOrSame(file, requests[0], size);
      if ReadFrom(next).None? {
        LockedOut(next, requests[1..], size);
      } else {
        if r == Saved {
          ServeOneName(file, requests[0], size, "");
        }
        RunKeepsTidy(next, requests[1..], size);
      }
    }
  }

  /** A file that cannot be read is never changed again. */
  lemma {:induction false} LockedOut(file: File, requests: seq<Request>, size: seq<Entry> -> nat)
    requires ReadFrom(file).None?
    ensures Run(file, requests, size) == file
    ensures requests != [] ==> Serve(file, requests[0], size).1 != Saved
    decreases |requests|
  {
    if requests != [] {
      SavedOrSame(file, requests[0], size);
      LockedOut(file, requests[1..], size);
    }
  }

  /** The list a request would write, told from the file before the call; None when a
      guard refuses the request. */
  ghost function ListToWrite(file: File, request: Request): Option<seq<Entry>>
    requires ReadFrom(file).Some?
  {
    var name, env := NormalizeName(request.rawName), ReadFrom(file).value;
    if name.None? then None
    else match request
         case Set(rawName, value, now, _) =>
           if CanSet(file, rawName, value) then Some(With(env, Entry(name.value, value, now))) else None
         case Delete(_, _) => Some(Without(env, name.value))
  }

  /** How every request ends: the first of its guards to fail, then the size of the list to
      write, then the disk; past all of them it is saved. */
  lemma OutcomeIs(file: File, request: Request, size: seq<Entry> -> nat)
    ensures var r := Serve(file, request, size).1;
            if NormalizeName(request.rawName).None? then r == BadName
            else if request.Set? && |request.value| > 32768 then r == ValueTooLong
            else if ReadFrom(file).None? then r == CannotRead
            else match ListToWrite(file, request)
                 case None => request.Set? && |ReadFrom(file).value| >= 128 && r == TooMany
                 case Some(list) =>
                   r == (if size(list) > 262144 then TooBig else if request.writes then Saved else CannotWrite)
  {
    ReadIsTidy(file);
    if ReadFrom(file).Some? && ListToWrite(file, request).Some? {
      ListIsTidy(file, request);
      TidyIffNormal(ListToWrite(file, request).value);
    }
  }

  /** A request leaves a readable file readable exactly unless it passes its guards,
      the disk takes the write, and the list to write encodes to just the limit. That
      locks the store for good. */
  lemma StaysReadableIff(file: File, request: Request, size: seq<Entry> -> nat)
    requires ReadFrom(file).Some?
    ensures var list := ListToWrite(file, request);
            ReadFrom(Serve(file, request, size).0).Some? <==>
            !(list.Some? && request.writes && size(list.value) == MAX_FILE_BYTES)
  {
    ReadIsTidy(file);
    var list := ListToWrite(file, request);
    if list.Some? {
      ListIsTidy(file, request);
      WriteIff(file, list.value, size, request.writes);
    }
  }

  lemma ListIsTidy(file: File, request: Request)
    requires ReadFrom(file).Some? && ListToWrite(file, request).Some?
    ensures Tidy(ListToWrite(file, request).value)
  {
    ReadIsTidy(file);
    var name, env := NormalizeName(request.rawName).value, ReadFrom(file).value;
    match request {
      case Set(_, value, now, _) => WithCases(env, Entry(name, value, now));
      case Delete(_, _) => WithoutIsTidy(env, name);
    }
  }

  // ---- A file that reaches the limit exactly ----

  /** The length of a string of bytes once encoded: quotes and backslashes are escaped
      with one more byte, so are the usual control characters, and other control
      characters and the HTML ones are spelled out. The two line separators of
      Unicode, three bytes each, are spelled out as well. */
  function EscapedLen(bytes: seq<Byte>): nat {
    if bytes == [] then 0
    else if |bytes| >= 3 && bytes[0] == 0xE2 && bytes[1] == 0x80 && bytes[2] in {0xA8, 0xA9} then
      6 + EscapedLen(bytes[3..])
    else
      (if bytes[0] in {0x22, 0x5C, 8, 9, 10, 12, 13} then 2
       else if bytes[0] < 0x20 || bytes[0] in {0x26, 0x3C, 0x3E} then 6
       else 1) + EscapedLen(bytes[1..])
  }

  /** One entry, indented; an empty time stamp is left out. Names and time stamps hold
      nothing that is escaped. */
  function EncodedEntry(entry: Entry): nat {
    |"    {\n      \"name\": \"\",\n      \"value\": \"\""| + |entry.name| + EscapedLen(entry.value)
    + (if entry.updatedAt == "" then 0 else |",\n      \"updated_at\": \"\""| + |entry.updatedAt|)
    + |"\n    }"|
  }

  function EncodedEntries(env: seq<Entry>): nat {
    if env == [] then 0
    else
      EncodedEntries(env[..|env| - 1]) + EncodedEntry(env[|env| - 1])
      + if |env| > 1 then |",\n"| else 0
  }

  /** The length of the indented encoding of the whole file. */
  function Encoded(env: seq<Entry>): nat {
    |"{\n  \"version\": 1"|
    + (if env == [] then 0 else |",\n  \"env\": [\n"| + EncodedEntries(env) + |"\n  ]"|)
    + |"\n}"|
  }

  const NOW := "2024-01-01T00:00:00Z"
  const NAMES := "ABCDEFGH"

  function Letters(n: nat): seq<Byte> {
    seq(n, _ => 0x61)
  }

  lemma {:induction false} LettersPlain(n: nat)
    ensures EscapedLen(Letters(n)) == n
  {
    if n > 0 {
      assert Letters(n)[1..] == Letters(n - 1);
      LettersPlain(n - 1);
    }
  }

  function Named(i: nat, n: nat): Entry
    requires i < 8
  {
    Entry([NAMES[i]], Letters(n), NOW)
  }

  /** The first k names, each with a value of one length. */
  function FullList(k: nat, len: nat): (env: seq<Entry>)
    requires k <= 7
    ensures |env| == k && forall i :: 0 <= i < k ==> env[i] == Named(i, len)
  {
    if k == 0 then [] else FullList(k - 1, len) + [Named(k - 1, len)]
  }

  /** What one entry with a one-letter name adds to its value. */
  const ENTRY_OVERHEAD := 92

  lemma EntryLength(i: nat, n: nat)
    requires i < 8
    ensures EncodedEntry(Named(i, n)) == ENTRY_OVERHEAD + n
  {
    LettersPlain(n);
    assert |"    {\n      \"name\": \"\",\n      \"value\": \"\""| == 41;
    assert |",\n      \"updated_at\": \"\""| == 24;
    assert |"\n    }"| == 6;
    assert |NOW| == 20;
  }

  lemma {:induction false} FullLength(k: nat, len: nat)
    requires k <= 7
    ensures EncodedEntries(FullList(k, len)) == k * (ENTRY_OVERHEAD + len) + if k > 1 then 2 * (k - 1) else 0
  {
    if k > 0 {
      FullLength(k - 1, len);
      EntryLength(k - 1, len);
      assert FullList(k, len)[..k - 1] == FullList(k - 1, len);
    }
  }

  /** The file as the writer leaves it with the first k names. */
  function FileOf(k: nat, len: nat): File
    requires k <= 7
  {
    if k == 0 then Missing else Stored(FullList(k, len), Encoded(FullList(k, len)) + 1)
  }

  lemma NamesDiffer(i: nat, j: nat)
    requires i < j < 8
    ensures NAMES[i] != NAMES[j]
  {
  }

  lemma NotNamed(k: nat, len: nat, j: nat)
    requires k <= 7 && k <= j < 8
    ensures !HasName(FullList(k, len), [NAMES[j]])
  {
    forall i | 0 <= i < k ensures FullList(k, len)[i].name != [NAMES[j]] {
      NamesDiffer(i, j);
    }
  }

  lemma NamedIsTidy(i: nat, n: nat)
    requires i < 8 && n <= MAX_VALUE_LEN
    ensures TidyEntry(Named(i, n))
  {
  }

  lemma {:induction false} FullIsTidy(k: nat, len: nat)
    requires k <= 7 && len <= MAX_VALUE_LEN
    ensures Tidy(FullList(k, len))
  {
    if k > 0 {
      FullIsTidy(k - 1, len);
      NotNamed(k - 1, len, k - 1);
      NamedIsTidy(k - 1, len);
      WithAppends(FullList(k - 1, len), Named(k - 1, len));
      WithCases(FullList(k - 1, len), Named(k - 1, len));
    }
  }

  lemma ListLength(k: nat, len: nat, n: nat)
    requires k <= 7
    ensures Encoded(FullList(k, len) + [Named(k, n)]) == 35 + k * (ENTRY_OVERHEAD + len + 2) + ENTRY_OVERHEAD + n
  {
    var env := FullList(k, len) + [Named(k, n)];
    assert env[..k] == FullList(k, len);
    FullLength(k, len);
    EntryLength(k, n);
    assert |"{\n  \"version\": 1"| == 16 && |",\n  \"env\": [\n"| == 13;
    assert |"\n  ]"| == 4 && |"\n}"| == 2;
  }

  lemma FileHolds(k: nat, len: nat)
    requires k <= 7 && len <= MAX_VALUE_LEN
    ensures ReadFrom(FileOf(k, len)) == Some(FullList(k, len))
  {
    if k > 0 {
      FullIsTidy(k, len);
      TidyIffNormal(FullList(k, len));
      FullFits(k - 1, len);
    }
  }

  /** Seven such values fit. */
  lemma FullFits(k: nat, len: nat)
    requires k < 7 && len <= MAX_VALUE_LEN
    ensures FullList(k + 1, len) == FullList(k, len) + [Named(k, len)]
    ensures Encoded(FullList(k + 1, len)) < MAX_FILE_BYTES
  {
    ListLength(k, len, len);
    SevenFit(k, ENTRY_OVERHEAD + len + 2);
  }

  lemma SevenFit(k: nat, n: nat)
    requires k < 7 && n <= ENTRY_OVERHEAD + MAX_VALUE_LEN + 2
    ensures 35 + k * n + n < MAX_FILE_BYTES
  {
    assert k * n <= 6 * n;
  }

  /** Setting a new name saves the longer list when it fits. */
  lemma SetAppends(file: File, env: seq<Entry>, entry: Entry, size: seq<Entry> -> nat)
    requires ReadFrom(file) == Some(env) && |env| < MAX_ENV_VARS
    requires TidyEntry(entry) && !HasName(env, entry.name)
    requires size(env + [entry]) <= MAX_FILE_BYTES
    ensures AfterSet(file, entry.name, entry.value, entry.updatedAt, size, true)
         == (Stored(env + [entry], size(env + [entry]) + 1), Saved)
  {
    ReadIsTidy(file);
    ValidNamesStay(entry.name);
    WithAppends(env, entry);
    WithCases(env, entry);
    WriteIff(file, env + [entry], size, true);
  }

  /** Setting a name by request is setting its entry. */
  lemma ServesNamed(file: File, k: nat, n: nat, size: seq<Entry> -> nat)
    requires k < 8
    ensures var entry := Named(k, n);
            Serve(file, Set([NAMES[k]], Letters(n), NOW, true), size)
            == AfterSet(file, entry.name, entry.value, entry.updatedAt, size, true)
  {
  }

  /** The length that an eighth value needs to reach the limit. */
  const LAST_LENGTH := 31983

  /** A readable file with seven values of the longest length: an eighth within its cap
      is answered as saved, and the next read already fails. */
  lemma ExactFitLocksOut()
    ensures ReadFrom(FileOf(7, MAX_VALUE_LEN)).Some? && LAST_LENGTH <= MAX_VALUE_LEN
    ensures var last := Set([NAMES[7]], Letters(LAST_LENGTH), NOW, true);
            var (next, r) := Serve(FileOf(7, MAX_VALUE_LEN), last, Encoded);
            r == Saved && ReadFrom(next).None?
  {
    FileHolds(7, MAX_VALUE_LEN);
    ListLength(7, MAX_VALUE_LEN, LAST_LENGTH);
    NotNamed(7, MAX_VALUE_LEN, 7);
    NamedIsTidy(7, LAST_LENGTH);
    ServesNamed(FileOf(7, MAX_VALUE_LEN), 7, LAST_LENGTH, Encoded);
    SetAppends(FileOf(7, MAX_VALUE_LEN), FullList(7, MAX_VALUE_LEN), Named(7, LAST_LENGTH), Encoded);
  }
}
