/** The capture patterns of the scanner (the module-level matchers and the
    add-count matcher of `HashInsertTemp`), written out as string functions
    with the leftmost-match semantics of a regular-expression `search`. */
module Patterns {
  import opened Wrappers

  predicate IsDigit(c: char) {
    '0' <= c <= '9'
  }

  /** `p` holds in `s` from index `i + k` on, for the characters `p[k..]`. */
  predicate MatchesFrom(s: string, p: string, i: nat, k: nat)
    decreases |p| - k
  {
    k >= |p| || (i + k < |s| && s[i + k] == p[k] && MatchesFrom(s, p, i, k + 1))
  }

  /** The literal `p` occurs in `s` starting at index `i`. */
  predicate StartsAt(s: string, p: string, i: nat) {
    i + |p| <= |s| && MatchesFrom(s, p, i, 0)
  }

  lemma {:induction false} MatchesFromSlice(s: string, p: string, i: nat, k: nat)
    requires k <= |p| && i + |p| <= |s|
    ensures MatchesFrom(s, p, i, k) <==> s[i + k..i + |p|] == p[k..]
    decreases |p| - k
  {
    if k < |p| {
      MatchesFromSlice(s, p, i, k + 1);
      assert s[i + k..i + |p|] == [s[i + k]] + s[i + k + 1..i + |p|];
      assert p[k..] == [p[k]] + p[k + 1..];
    }
  }

  /** StartsAt is the slice equality it abbreviates. */
  lemma StartsAtSlice(s: string, p: string, i: nat)
    ensures StartsAt(s, p, i) <==> i + |p| <= |s| && s[i..i + |p|] == p
  {
    if i + |p| <= |s| {
      MatchesFromSlice(s, p, i, 0);
    }
  }

  /** A character class of the patterns: `\d`, or `[^c]`. */
  datatype CharClass = Digit | Except(c: char)

  predicate InClass(cls: CharClass, c: char) {
    match cls
    case Digit => IsDigit(c)
    case Except(x) => c != x
  }

  /** The two shapes of pattern the scanner uses:
      `Clock` is `(\d{2}:\d{2}:\d{2})`, whose group is the whole match;
      `After(prefix, cls)` is `prefix(cls+)`, whose group 1 is the greedy run. */
  datatype Pattern = Clock | After(prefix: string, cls: CharClass)

  const TimeMatcher := Clock
  const NameMatcher := After("destination': '", Except('\''))
  const CoordSysMatcher := After("destination_coordinate_system': u'", Except('\''))
  const PalletMatcher := After("lift:   39 processing crates for pallet: ", Except('\r'))
  const AddsMatcher := After("added: ", Digit)

  predicate ClockAt(s: string, i: nat) {
    i + 8 <= |s|
    && IsDigit(s[i]) && IsDigit(s[i + 1]) && s[i + 2] == ':'
    && IsDigit(s[i + 3]) && IsDigit(s[i + 4]) && s[i + 5] == ':'
    && IsDigit(s[i + 6]) && IsDigit(s[i + 7])
  }

  /** The pattern matches `s` at index `i`. */
  predicate MatchesAt(s: string, pat: Pattern, i: nat) {
    match pat
    case Clock => ClockAt(s, i)
    case After(p, cls) => StartsAt(s, p, i) && i + |p| < |s| && InClass(cls, s[i + |p|])
  }

  /** The length of the longest run of `cls` characters in `s` from `j` on. */
  function Run(s: string, j: nat, cls: CharClass): (n: nat)
    requires j <= |s|
    ensures j + n <= |s|
    ensures forall k :: j <= k < j + n ==> InClass(cls, s[k])
    ensures j + n == |s| || !InClass(cls, s[j + n])
    decreases |s| - j
  {
    if j < |s| && InClass(cls, s[j]) then 1 + Run(s, j + 1, cls) else 0
  }

  /** The leftmost index at or after `i` where the pattern matches. */
  function FirstMatch(s: string, pat: Pattern, i: nat): (r: Option<nat>)
    requires i <= |s|
    ensures r.Some? ==> i <= r.value <= |s| && MatchesAt(s, pat, r.value)
    ensures r.Some? ==> forall q :: i <= q < r.value ==> !MatchesAt(s, pat, q)
    ensures r.None? ==> forall q :: i <= q <= |s| ==> !MatchesAt(s, pat, q)
    decreases |s| - i
  {
    if MatchesAt(s, pat, i) then Some(i)
    else if i == |s| then None
    else FirstMatch(s, pat, i + 1)
  }

  /** The group the scanner reads from a match at `i`. */
  function Group(s: string, pat: Pattern, i: nat): (g: string)
    requires i <= |s| && MatchesAt(s, pat, i)
    ensures pat.Clock? ==> |g| == 8 && g == s[i..i + 8] && ClockAt(g, 0)
    ensures pat.After? ==> 0 < |g| && (forall c :: c in g ==> InClass(pat.cls, c))
    ensures pat.After? ==> var j := i + |pat.prefix|;
      j + |g| <= |s| && g == s[j..j + |g|] && (j + |g| == |s| || !InClass(pat.cls, s[j + |g|]))
  {
    match pat
    case Clock => s[i..i + 8]
    case After(p, cls) =>
      var j := i + |p|;
      var n := Run(s, j, cls);
      assert forall c :: c in s[j..j + n] ==> InClass(cls, c) by {
        forall c | c in s[j..j + n] ensures InClass(cls, c) {
          var k :| 0 <= k < n && s[j..j + n][k] == c;
          assert s[j + k] == c;
        }
      }
      s[j..j + n]
  }

  /** The pattern matches `s` at `i` and nowhere to the left of `i`. */
  predicate LeftmostAt(s: string, pat: Pattern, i: nat) {
    i <= |s| && MatchesAt(s, pat, i) && forall q :: 0 <= q < i ==> !MatchesAt(s, pat, q)
  }

  /** `pattern.search(s)` followed by reading the group: `None` when there is
      no match (where the source's `.group` raises). */
  function Search(s: string, pat: Pattern): (r: Option<string>)
    ensures r.None? <==> forall q :: 0 <= q <= |s| ==> !MatchesAt(s, pat, q)
    ensures r.Some? ==> exists i :: LeftmostAt(s, pat, i) && r.value == Group(s, pat, i)
  {
    match FirstMatch(s, pat, 0)
    case None => None
    case Some(i) => Some(Group(s, pat, i))
  }

  /** A leftmost match determines the search result. */
  lemma SearchAt(s: string, pat: Pattern, i: nat)
    requires LeftmostAt(s, pat, i)
    ensures Search(s, pat) == Some(Group(s, pat, i))
  {
    var r := FirstMatch(s, pat, 0);
    assert r.Some?;
    assert r.value == i;
  }
}
