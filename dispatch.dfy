/** The dispatch regular expression of `CrateParser`: the markers joined into
    one alternation `(m1)|(m2)|...`, what that pattern means when compiled, and
    how a regular-expression `search` with it picks a marker from a line. */
module Dispatch {
  import opened Wrappers
  import opened Patterns

  /** The characters a regular expression gives a meaning of its own. */
  predicate IsMeta(c: char) {
    || c == '.' || c == '^' || c == '$' || c == '*' || c == '+' || c == '?'
    || c == '{' || c == '}' || c == '[' || c == ']' || c == '\\' || c == '|'
    || c == '(' || c == ')'
  }

  /** A marker that stands for itself inside a pattern. */
  predicate IsLiteral(m: string) {
    forall c :: c in m ==> !IsMeta(c)
  }

  /** `get_re`: every key in parentheses, joined with `|`. */
  function GetRe(keys: seq<string>): (p: string)
    ensures |keys| > 0 ==> 0 < |p| && p[0] == '('
  {
    if |keys| == 0 then ""
    else if |keys| == 1 then "(" + keys[0] + ")"
    else "(" + keys[0] + ")|" + GetRe(keys[1..])
  }

  /** The index of the first `)` in `p` at or after `i`, or `|p|`. */
  function CloseAt(p: string, i: nat): (j: nat)
    requires i <= |p|
    ensures i <= j <= |p| && (j < |p| ==> p[j] == ')')
    ensures forall k :: i <= k < j ==> p[k] != ')'
    decreases |p| - i
  {
    if i == |p| || p[i] == ')' then i else CloseAt(p, i + 1)
  }

  /** Compiles a pattern of the shape `(lit)|(lit)|...|(lit)` into its literal
      alternatives, in order; `None` for any other pattern (this model has no
      general regular-expression engine). */
  function Compile(p: string): (r: Option<seq<string>>)
    ensures r.Some? ==> 0 < |r.value| && forall m :: m in r.value ==> IsLiteral(m)
    decreases |p|
  {
    if |p| < 2 || p[0] != '(' then None
    else
      var j := CloseAt(p, 1);
      if j == |p| || !IsLiteral(p[1..j]) then None
      else if j + 1 == |p| then Some([p[1..j]])
      else if p[j + 1] != '|' then None
      else
        var rest :- Compile(p[j + 2..]);
        Some([p[1..j]] + rest)
  }

  /** A literal key is followed, after `(`, by its closing `)`. */
  lemma CloseAfterLiteral(m: string, tail: string)
    requires IsLiteral(m)
    ensures CloseAt("(" + m + ")" + tail, 1) == |m| + 1
  {
    var p := "(" + m + ")" + tail;
    forall k | 1 <= k < |m| + 1 ensures p[k] != ')' {
      assert p[k] == m[k - 1];
      assert m[k - 1] in m;
    }
    assert p[|m| + 1] == ')';
  }

  /** Compiling the pattern that `get_re` builds gives back the keys, one
      alternative per key, in the same order. */
  lemma {:induction false} CompileGetRe(keys: seq<string>)
    requires 0 < |keys| && forall m :: m in keys ==> IsLiteral(m)
    ensures Compile(GetRe(keys)) == Some(keys)
  {
    var m := keys[0];
    assert m in keys;
    if |keys| == 1 {
      var p := "(" + m + ")";
      CloseAfterLiteral(m, "");
      assert p == "(" + m + ")" + "";
      assert p[1..|m| + 1] == m;
      assert keys == [m];
    } else {
      var rest := GetRe(keys[1..]);
      var p := "(" + m + ")|" + rest;
      assert p == "(" + m + ")" + ("|" + rest);
      CloseAfterLiteral(m, "|" + rest);
      assert p[1..|m| + 1] == m;
      assert p[|m| + 2] == '|';
      assert p[|m| + 3..] == rest;
      forall k | k in keys[1..] ensures IsLiteral(k) {
        assert k in keys;
      }
      CompileGetRe(keys[1..]);
      assert [m] + keys[1..] == keys;
    }
  }

  /** The first alternative, in order, that matches `s` at index `i`. */
  function AltAt(s: string, alts: seq<string>, i: nat): (r: Option<string>)
    ensures r.Some? ==> r.value in alts && StartsAt(s, r.value, i)
    ensures r.None? <==> forall a :: a in alts ==> !StartsAt(s, a, i)
  {
    if |alts| == 0 then None
    else if StartsAt(s, alts[0], i) then Some(alts[0])
    else
      var r := AltAt(s, alts[1..], i);
      assert forall a :: a in alts ==> a == alts[0] || a in alts[1..];
      r
  }

  /** No alternative occurs in `s` at an index before `i`. */
  predicate NoneBefore(s: string, alts: seq<string>, i: nat) {
    forall q, a :: 0 <= q < i && a in alts ==> !StartsAt(s, a, q)
  }

  /** The leftmost index at or after `i` where some alternative occurs. */
  function FirstHit(s: string, alts: seq<string>, i: nat): (r: Option<nat>)
    requires i <= |s|
    ensures r.Some? ==> i <= r.value <= |s| && AltAt(s, alts, r.value).Some?
    ensures r.Some? ==> forall q, a :: i <= q < r.value && a in alts ==> !StartsAt(s, a, q)
    ensures r.None? ==> forall q, a :: i <= q && a in alts ==> !StartsAt(s, a, q)
    decreases |s| - i
  {
    if AltAt(s, alts, i).Some? then Some(i)
    else if i == |s| then None
    else
      FirstHit(s, alts, i + 1)
  }

  /** `re.compile(pattern).search(s).group()` for an alternation of literals:
      scanning left to right, the first alternative (in pattern order) that
      occurs at the leftmost index where any alternative occurs. */
  function SearchAlternation(s: string, alts: seq<string>): (r: Option<string>)
    ensures r.None? <==> forall q, a :: a in alts ==> !StartsAt(s, a, q)
    ensures r.Some? ==> r.value in alts && exists i :: StartsAt(s, r.value, i) && NoneBefore(s, alts, i)
  {
    match FirstHit(s, alts, 0)
    case None => None
    case Some(i) => AltAt(s, alts, i)
  }

  predicate IsPrefix(a: string, b: string) {
    |a| <= |b| && b[..|a|] == a
  }

  /** No alternative is a prefix of a different one. */
  predicate NoPrefix(alts: seq<string>) {
    forall a, b :: a in alts && b in alts && a != b ==> !IsPrefix(a, b)
  }

  /** Two literals occurring at the same index: the shorter is a prefix. */
  lemma SameStart(s: string, a: string, b: string, i: nat)
    requires StartsAt(s, a, i) && StartsAt(s, b, i) && |a| <= |b|
    ensures IsPrefix(a, b)
  {
    StartsAtSlice(s, a, i);
    StartsAtSlice(s, b, i);
    assert b[..|a|] == s[i..i + |b|][..|a|] == s[i..i + |a|];
  }

  /** Without prefixes among the alternatives, at most one alternative occurs
      at the leftmost occurrence index. */
  lemma {:induction false} LeftmostUnique(s: string, alts: seq<string>, a: string, i: nat, b: string, j: nat)
    requires NoPrefix(alts)
    requires a in alts && StartsAt(s, a, i) && NoneBefore(s, alts, i)
    requires b in alts && StartsAt(s, b, j) && NoneBefore(s, alts, j)
    ensures a == b && i == j
  {
    assert !(j < i) && !(i < j);
    if |a| <= |b| {
      SameStart(s, a, b, i);
    } else {
      SameStart(s, b, a, i);
    }
  }

  /** The alternation picks the alternative whose occurrence starts leftmost:
      both directions, when no alternative is a prefix of another. */
  lemma SearchIsLeftmost(s: string, alts: seq<string>, m: string)
    requires NoPrefix(alts)
    ensures SearchAlternation(s, alts) == Some(m) <==>
            m in alts && exists i :: StartsAt(s, m, i) && NoneBefore(s, alts, i)
  {
    var r := SearchAlternation(s, alts);
    if m in alts && exists i :: StartsAt(s, m, i) && NoneBefore(s, alts, i) {
      var i :| StartsAt(s, m, i) && NoneBefore(s, alts, i);
      assert r.Some?;
      var j :| StartsAt(s, r.value, j) && NoneBefore(s, alts, j);
      LeftmostUnique(s, alts, m, i, r.value, j);
    }
  }

  /** The order of the alternatives cannot change which one is dispatched,
      as long as none is a prefix of another. */
  lemma SearchOrderIrrelevant(s: string, alts: seq<string>, others: seq<string>)
    requires NoPrefix(alts) && NoPrefix(others)
    requires forall m :: m in alts <==> m in others
    ensures SearchAlternation(s, alts) == SearchAlternation(s, others)
  {
    var r := SearchAlternation(s, alts);
    if r.Some? {
      var i :| StartsAt(s, r.value, i) && NoneBefore(s, alts, i);
      assert NoneBefore(s, others, i);
      SearchIsLeftmost(s, others, r.value);
    } else {
      assert forall q, a :: a in others ==> !StartsAt(s, a, q);
    }
  }
}
