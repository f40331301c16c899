/** The text helpers of Go's standard library that the configuration readers share. */
module GoText {
  /** Unicode white space. */
  predicate IsSpace(c: char) {
    || '\t' <= c <= '\r' || c == ' '
    || c as int in {0x85, 0xA0, 0x1680, 0x2028, 0x2029, 0x202F, 0x205F, 0x3000}
    || 0x2000 <= c as int <= 0x200A
  }

  function TrimLeft(s: string): (r: string)
    ensures |r| <= |s|
    ensures r == "" || !IsSpace(r[0])
    ensures s == "" || !IsSpace(s[0]) ==> r == s
  {
    if s != "" && IsSpace(s[0]) then TrimLeft(s[1..]) else s
  }

  function TrimRight(s: string): (r: string)
    ensures r <= s
    ensures r == "" || !IsSpace(r[|r| - 1])
    ensures s == "" || !IsSpace(s[|s| - 1]) ==> r == s
  {
    if s != "" && IsSpace(s[|s| - 1]) then TrimRight(s[..|s| - 1]) else s
  }

  /** Nothing to trim at either end. */
  predicate Trimmed(s: string) {
    s == "" || (!IsSpace(s[0]) && !IsSpace(s[|s| - 1]))
  }

  function TrimSpace(s: string): (r: string)
    ensures |r| <= |s|
    ensures Trimmed(r)
    ensures Trimmed(s) ==> r == s
  {
    TrimRight(TrimLeft(s))
  }

  predicate AllSpace(s: string) {
    forall i :: 0 <= i < |s| ==> IsSpace(s[i])
  }

  lemma {:induction false} TrimLeftPadded(left: string, s: string)
    requires AllSpace(left)
    ensures TrimLeft(left + s) == TrimLeft(s)
  {
    if left == "" {
      assert left + s == s;
    } else {
      TrimLeftPadded(left[1..], s);
      assert (left + s)[1..] == left[1..] + s;
    }
  }

  lemma {:induction false} TrimRightPadded(s: string, right: string)
    requires AllSpace(right)
    ensures TrimRight(s + right) == TrimRight(s)
  {
    if right == "" {
      assert s + right == s;
    } else {
      TrimRightPadded(s, right[..|right| - 1]);
      assert (s + right)[..|s + right| - 1] == s + right[..|right| - 1];
    }
  }

  /** Trimming takes away the white space around a text, */
  lemma TrimPadded(left: string, s: string, right: string)
    requires AllSpace(left) && AllSpace(right) && Trimmed(s)
    ensures TrimSpace(left + s + right) == s
  {
    assert left + s + right == left + (s + right);
    TrimLeftPadded(left, s + right);
    if s == "" {
      assert s + right == right + "";
      TrimLeftPadded(right, "");
    } else {
      TrimRightPadded(s, right);
    }
  }

  /** and nothing else. */
  lemma TrimSplits(s: string) returns (left: string, right: string)
    ensures s == left + TrimSpace(s) + right && AllSpace(left) && AllSpace(right)
  {
    left := TrimLeftSplits(s);
    right := TrimRightSplits(TrimLeft(s));
  }

  lemma {:induction false} TrimLeftSplits(s: string) returns (left: string)
    ensures s == left + TrimLeft(s) && AllSpace(left)
  {
    left := "";
    if s != "" && IsSpace(s[0]) {
      left := TrimLeftSplits(s[1..]);
      left := [s[0]] + left;
    }
  }

  lemma {:induction false} TrimRightSplits(s: string) returns (right: string)
    ensures s == TrimRight(s) + right && AllSpace(right)
  {
    right := "";
    if s != "" && IsSpace(s[|s| - 1]) {
      right := TrimRightSplits(s[..|s| - 1]);
      right := right + [s[|s| - 1]];
    }
  }

  predicate HasPrefix(s: string, prefix: string) {
    prefix <= s
  }

  predicate HasSuffix(s: string, suffix: string) {
    |suffix| <= |s| && s[|s| - |suffix|..] == suffix
  }
}
