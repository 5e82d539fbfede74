// String helpers shared by the components: JavaScript's `String.prototype.trim`,
// `String.prototype.includes` and an abstract stand-in for `toLowerCase`.

module Text {

  /** A case-folding function such as `toLowerCase`. Its only property the
      components rely on is that the empty string folds to itself. */
  type CaseFold = f: string -> string | f("") == "" witness (s: string) => s

  /** The WhiteSpace and LineTerminator code points of ECMAScript, the set `trim` removes. */
  const JsWhitespace: set<char> := {
    '\t', '\n', '\U{000B}', '\U{000C}', '\r', ' ', '\U{00A0}', '\U{1680}',
    '\U{2000}', '\U{2001}', '\U{2002}', '\U{2003}', '\U{2004}', '\U{2005}',
    '\U{2006}', '\U{2007}', '\U{2008}', '\U{2009}', '\U{200A}',
    '\U{2028}', '\U{2029}', '\U{202F}', '\U{205F}', '\U{3000}', '\U{FEFF}'
  }

  predicate IsJsWhitespace(c: char)
  {
    c in JsWhitespace
  }

  /** Every character of `s` is white space. */
  predicate AllWhitespace(s: string)
  {
    forall i :: 0 <= i < |s| ==> IsJsWhitespace(s[i])
  }

  /** Where `trim`'s result starts when scanning from position `k`: the first
      position at or after `k` holding no white space, or the end. */
  function TrimStartFrom(s: string, k: nat): (n: nat)
    requires k <= |s|
    ensures k <= n <= |s|
    ensures forall i :: k <= i < n ==> IsJsWhitespace(s[i])
    ensures n == |s| || !IsJsWhitespace(s[n])
    decreases |s| - k
  {
    if k < |s| && IsJsWhitespace(s[k]) then TrimStartFrom(s, k + 1) else k
  }

  /** Where `trim`'s result ends when scanning back from position `k`, never
      going below `lo`: just after the last character before `k` that is not
      white space. */
  function TrimEndFrom(s: string, lo: nat, k: nat): (n: nat)
    requires lo <= k <= |s|
    ensures lo <= n <= k
    ensures forall i :: n <= i < k ==> IsJsWhitespace(s[i])
    ensures n == lo || !IsJsWhitespace(s[n - 1])
    decreases k
  {
    if k > lo && IsJsWhitespace(s[k - 1]) then TrimEndFrom(s, lo, k - 1) else k
  }

  /** `s.trim()`: leading and trailing white space removed. */
  function Trim(s: string): string
  {
    var i := TrimStartFrom(s, 0);
    s[i..TrimEndFrom(s, i, |s|)]
  }

  /** What `trim` leaves is the infix of `s` between a white-space prefix and a
      white-space suffix, and it neither starts nor ends with white space. */
  lemma TrimShape(s: string)
    ensures var r := Trim(s); var i := TrimStartFrom(s, 0);
      && i + |r| <= |s| && r == s[i..i + |r|]
      && (forall k :: 0 <= k < i ==> IsJsWhitespace(s[k]))
      && (forall k :: i + |r| <= k < |s| ==> IsJsWhitespace(s[k]))
      && (r == [] || (!IsJsWhitespace(r[0]) && !IsJsWhitespace(r[|r| - 1])))
  {
    var i := TrimStartFrom(s, 0);
    var j := TrimEndFrom(s, i, |s|);
    var r := Trim(s);
    assert |r| == j - i;
    if r != [] {
      assert r[0] == s[i] && r[|r| - 1] == s[j - 1];
    }
  }

  /** `!s.trim()`: the trimmed string is empty, hence falsy. */
  predicate IsBlank(s: string)
  {
    Trim(s) == ""
  }

  /** A string is blank exactly when every one of its characters is white space. */
  lemma BlankIffAllWhitespace(s: string)
    ensures IsBlank(s) <==> AllWhitespace(s)
  {
    var i := TrimStartFrom(s, 0);
    var j := TrimEndFrom(s, i, |s|);
    assert |Trim(s)| == j - i;
  }

  /** `needle` occurs as a contiguous infix of `s` starting at position `i`. */
  predicate OccursAt(s: string, needle: string, i: int)
  {
    0 <= i && i + |needle| <= |s| && s[i..i + |needle|] == needle
  }

  /** `s.includes(needle)`. */
  predicate Contains(s: string, needle: string)
    decreases |s|
  {
    needle <= s || (s != [] && Contains(s[1..], needle))
  }

  /** An occurrence found by `includes` is a real infix occurrence. */
  lemma {:induction false} ContainsHasOccurrence(s: string, needle: string) returns (i: int)
    requires Contains(s, needle)
    ensures OccursAt(s, needle, i)
    decreases |s|
  {
    if needle <= s {
      i := 0;
      assert s[..|needle|] == needle;
    } else {
      var j := ContainsHasOccurrence(s[1..], needle);
      i := j + 1;
      assert s[1..][j..j + |needle|] == s[i..i + |needle|];
    }
  }

  /** Every infix occurrence is found by `includes`. */
  lemma {:induction false} OccurrenceIsContained(s: string, needle: string, i: int)
    requires OccursAt(s, needle, i)
    ensures Contains(s, needle)
    decreases i
  {
    if i > 0 {
      assert s[1..][i - 1..i - 1 + |needle|] == s[i..i + |needle|];
      OccurrenceIsContained(s[1..], needle, i - 1);
    } else {
      assert s[..|needle|] == needle;
    }
  }

  lemma ContainsIffOccurs(s: string, needle: string)
    ensures Contains(s, needle) <==> exists i :: OccursAt(s, needle, i)
  {
    if Contains(s, needle) {
      var i := ContainsHasOccurrence(s, needle);
    }
    if exists i :: OccursAt(s, needle, i) {
      var i :| OccursAt(s, needle, i);
      OccurrenceIsContained(s, needle, i);
    }
  }

  /** Every string includes the empty string. */
  lemma ContainsEmpty(s: string)
    ensures Contains(s, "")
  {
  }

  /** `field.toLowerCase().includes(query.toLowerCase())`, the search test of every
      catalogue page. */
  predicate MatchesQuery(lower: CaseFold, field: string, query: string)
  {
    Contains(lower(field), lower(query))
  }

  /** An empty search box matches every field. */
  lemma EmptyQueryMatches(lower: CaseFold, field: string)
    ensures MatchesQuery(lower, field, "")
  {
    ContainsEmpty(lower(field));
  }

  /** The plural suffix the result counters append: "s" for more than one item. */
  function PluralSuffix(n: int): (r: string)
    ensures r == "s" <==> n > 1
    ensures r == "" <==> n <= 1
  {
    if n > 1 then "s" else ""
  }
}
