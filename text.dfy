/**
 * The JavaScript string built-ins the game relies on (`trim`, `startsWith`,
 * `endsWith`, `includes`, `split`), over strings as sequences of characters.
 */
module Text {
  import opened Wrappers

  predicate StartsWith(s: string, prefix: string) {
    |prefix| <= |s| && s[..|prefix|] == prefix
  }

  predicate EndsWith(s: string, suffix: string) {
    |suffix| <= |s| && s[|s| - |suffix|..] == suffix
  }

  /** `sep` occurs in `s` starting at position `i`. */
  predicate OccursAt(s: string, sep: string, i: nat) {
    i + |sep| <= |s| && s[i..i + |sep|] == sep
  }

  lemma OccursShift(s: string, sep: string, i: nat)
    requires |s| > 0 && i >= 1
    ensures OccursAt(s, sep, i) <==> OccursAt(s[1..], sep, i - 1)
  {
    if i + |sep| <= |s| {
      var a, b := s[i..i + |sep|], s[1..][i - 1..i - 1 + |sep|];
      forall k | 0 <= k < |sep| ensures a[k] == b[k] {
        assert a[k] == s[i + k] && b[k] == s[1..][i - 1 + k];
      }
      assert a == b;
    }
  }

  /** Index of the first occurrence of `sep` in `s` (`String.prototype.indexOf`). */
  function IndexOf(s: string, sep: string): (r: Option<nat>)
    requires |sep| > 0
    ensures r.Some? ==> OccursAt(s, sep, r.value)
    ensures r.Some? ==> forall i: nat :: i < r.value ==> !OccursAt(s, sep, i)
    ensures r.None? ==> forall i: nat :: !OccursAt(s, sep, i)
    decreases |s|
  {
    if |s| < |sep| then None
    else if s[..|sep|] == sep then Some(0)
    else
      var rest := IndexOf(s[1..], sep);
      forall i: nat | i >= 1 ensures OccursAt(s, sep, i) <==> OccursAt(s[1..], sep, i - 1) {
        OccursShift(s, sep, i);
      }
      assert !OccursAt(s, sep, 0);
      match rest
      case None => None
      case Some(i) => Some(i + 1)
  }

  predicate Contains(s: string, part: string)
    requires |part| > 0
  {
    IndexOf(s, part).Some?
  }

  /** `s.split(sep)` for a non-empty separator. */
  function Split(s: string, sep: string): (parts: seq<string>)
    requires |sep| > 0
    ensures |parts| >= 1
    decreases |s|
  {
    match IndexOf(s, sep)
    case None => [s]
    case Some(i) => [s[..i]] + Split(s[i + |sep|..], sep)
  }

  /** The part at index `i` of a split, or `None` when JavaScript would read `undefined`. */
  function Part(parts: seq<string>, i: nat): Option<string> {
    if i < |parts| then Some(parts[i]) else None
  }

  /** If the separator's first character does not occur in `a`, the first match is right after `a`. */
  lemma {:induction false} IndexOfAfterPrefix(a: string, sep: string, b: string)
    requires |sep| > 0
    requires sep[0] !in a
    ensures IndexOf(a + sep + b, sep) == Some(|a|)
  {
    var s := a + sep + b;
    if a == [] {
      assert s[..|sep|] == sep;
    } else {
      assert s[0] == a[0] != sep[0];
      assert s[..|sep|] != sep;
      assert s[1..] == a[1..] + sep + b;
      IndexOfAfterPrefix(a[1..], sep, b);
    }
  }

  /** A string in which the separator's first character never occurs contains no separator. */
  lemma {:induction false} IndexOfAbsent(a: string, sep: string)
    requires |sep| > 0
    requires sep[0] !in a
    ensures IndexOf(a, sep) == None
  {
    if |a| >= |sep| {
      assert a[..|sep|][0] == a[0] != sep[0];
      IndexOfAbsent(a[1..], sep);
    }
  }

  /** Splitting `a + sep + b` where neither side holds the separator's first character. */
  lemma SplitAround(a: string, sep: string, b: string)
    requires |sep| > 0
    requires sep[0] !in a && sep[0] !in b
    ensures Split(a + sep + b, sep) == [a, b]
  {
    var s := a + sep + b;
    IndexOfAfterPrefix(a, sep, b);
    assert s[..|a|] == a;
    assert s[|a| + |sep|..] == b;
    IndexOfAbsent(b, sep);
  }

  /** Splitting `a + sep + rest` where `a` does not hold the separator's first character. */
  lemma SplitCons(a: string, sep: string, rest: string)
    requires |sep| > 0
    requires sep[0] !in a
    ensures Split(a + sep + rest, sep) == [a] + Split(rest, sep)
  {
    var s := a + sep + rest;
    IndexOfAfterPrefix(a, sep, rest);
    assert s[..|a|] == a;
    assert s[|a| + |sep|..] == rest;
  }

  /**
   * The characters `trim` removes: JavaScript's white space (tab, vertical
   * tab, form feed, space, no-break space, the byte order mark and the
   * other space separators) and its line terminators.
   */
  predicate IsWhitespace(c: char) {
    || c == '\t' || c == '\n' || c == '\U{000B}' || c == '\U{000C}' || c == '\r' || c == ' '
    || c == '\U{00A0}' || c == '\U{1680}' || ('\U{2000}' <= c <= '\U{200A}')
    || c == '\U{2028}' || c == '\U{2029}' || c == '\U{202F}' || c == '\U{205F}'
    || c == '\U{3000}' || c == '\U{FEFF}'
  }

  function TrimStart(s: string): (r: string)
    ensures |r| <= |s| && r == s[|s| - |r|..]
    ensures r == [] || !IsWhitespace(r[0])
  {
    if s != [] && IsWhitespace(s[0]) then TrimStart(s[1..]) else s
  }

  function TrimEnd(s: string): (r: string)
    ensures |r| <= |s| && r == s[..|r|]
    ensures r == [] || !IsWhitespace(r[|r| - 1])
  {
    if s != [] && IsWhitespace(s[|s| - 1]) then TrimEnd(s[..|s| - 1]) else s
  }

  /** `s.trim()`: no leading or trailing white space remains. */
  function Trim(s: string): (r: string)
    ensures r == [] || (!IsWhitespace(r[0]) && !IsWhitespace(r[|r| - 1]))
  {
    TrimEnd(TrimStart(s))
  }
}
