/** The string primitives the pages rely on: `toLowerCase`, `includes`,
    `trim` and `replace(/,/g, '')`.

    Lower-casing is modelled on ASCII letters only; the full Unicode case
    mapping of JavaScript is not part of this model. */
module Text {
  import opened Subsequences

  predicate IsUpper(c: char) {
    'A' <= c <= 'Z'
  }

  /** ASCII lower-casing of one character. */
  function LowerChar(c: char): (d: char)
    ensures !IsUpper(d)
    ensures IsUpper(c) ==> d as int - c as int == 'a' as int - 'A' as int
    ensures !IsUpper(c) ==> d == c
  {
    if IsUpper(c) then (c as int - 'A' as int + 'a' as int) as char else c
  }

  /** `s.toLowerCase()`, on ASCII letters. */
  function Lower(s: string): (r: string)
    ensures |r| == |s|
    ensures forall i :: 0 <= i < |s| ==> r[i] == LowerChar(s[i])
  {
    seq(|s|, i requires 0 <= i < |s| => LowerChar(s[i]))
  }

  lemma LowerAppend(a: string, b: string)
    ensures Lower(a + b) == Lower(a) + Lower(b)
  {
    assert forall i :: 0 <= i < |a + b| ==> Lower(a + b)[i] == (Lower(a) + Lower(b))[i];
  }

  /** Lower-casing twice is lower-casing once. */
  lemma LowerIdempotent(s: string)
    ensures Lower(Lower(s)) == Lower(s)
  {
  }

  /** `haystack.includes(needle)`: `needle` occurs at some position.
      Defined by scanning the start positions one after the other. */
  predicate Includes(haystack: string, needle: string)
    ensures needle <= haystack ==> Includes(haystack, needle)
    ensures Includes(haystack, needle) ==> |needle| <= |haystack|
    decreases |haystack|
  {
    needle <= haystack || (haystack != [] && Includes(haystack[1..], needle))
  }

  /** `needle` occupies positions `i .. i + |needle|` of `haystack`. */
  predicate OccursAt(haystack: string, needle: string, i: int) {
    0 <= i && i + |needle| <= |haystack| && haystack[i..i + |needle|] == needle
  }

  /** The scan finds exactly the needles that occur at some index. */
  lemma {:induction false} IncludesIffOccurs(haystack: string, needle: string)
    ensures Includes(haystack, needle) <==> exists i :: OccursAt(haystack, needle, i)
    decreases |haystack|
  {
    if needle <= haystack {
      assert OccursAt(haystack, needle, 0);
    } else {
      if exists i :: OccursAt(haystack, needle, i) {
        var i :| OccursAt(haystack, needle, i);
        assert i != 0;
        assert OccursAt(haystack[1..], needle, i - 1) by {
          assert haystack[1..][i - 1..i - 1 + |needle|] == haystack[i..i + |needle|];
        }
        IncludesIffOccurs(haystack[1..], needle);
      }
      if haystack != [] && Includes(haystack[1..], needle) {
        IncludesIffOccurs(haystack[1..], needle);
        var j :| OccursAt(haystack[1..], needle, j);
        assert haystack[1..][j..j + |needle|] == haystack[j + 1..j + 1 + |needle|];
        assert OccursAt(haystack, needle, j + 1);
      }
    }
  }

  /** The empty needle is found in every string. */
  lemma IncludesEmpty(haystack: string)
    ensures Includes(haystack, "")
  {
  }

  /** Whatever contains `needle + more` contains `needle`. */
  lemma {:induction false} IncludesDropSuffix(haystack: string, needle: string, more: string)
    requires Includes(haystack, needle + more)
    ensures Includes(haystack, needle)
    decreases |haystack|
  {
    if needle + more <= haystack {
      assert needle <= haystack by {
        assert forall k :: 0 <= k < |needle| ==> (needle + more)[k] == needle[k];
      }
    } else {
      IncludesDropSuffix(haystack[1..], needle, more);
    }
  }

  /** Case-insensitive containment as the pages write it:
      `haystack.toLowerCase().includes(needle.toLowerCase())`. */
  predicate ContainsIgnoringCase(haystack: string, needle: string)
    ensures needle == "" ==> ContainsIgnoringCase(haystack, needle)
    ensures ContainsIgnoringCase(haystack, needle) ==> |needle| <= |haystack|
    ensures Lower(needle) <= Lower(haystack) ==> ContainsIgnoringCase(haystack, needle)
  {
    Includes(Lower(haystack), Lower(needle))
  }

  /** Extending a query can only make case-insensitive containment harder. */
  lemma ContainsIgnoringCaseDropSuffix(haystack: string, needle: string, more: string)
    requires ContainsIgnoringCase(haystack, needle + more)
    ensures ContainsIgnoringCase(haystack, needle)
  {
    LowerAppend(needle, more);
    IncludesDropSuffix(Lower(haystack), Lower(needle), Lower(more));
  }

  /** The characters `String.prototype.trim` removes: the WhiteSpace and
      LineTerminator productions of ECMAScript. */
  predicate IsTrimmable(c: char) {
    || c == '\t' || c == '\U{000B}' || c == '\U{000C}' || c == ' ' || c == '\U{00A0}'
    || c == '\U{FEFF}' || c == '\U{1680}' || ('\U{2000}' <= c <= '\U{200A}')
    || c == '\U{202F}' || c == '\U{205F}' || c == '\U{3000}'
    || c == '\n' || c == '\r' || c == '\U{2028}' || c == '\U{2029}'
  }

  /** Every character of `s` is trimmable. */
  predicate IsBlank(s: string) {
    forall i :: 0 <= i < |s| ==> IsTrimmable(s[i])
  }

  /** A concatenation is blank exactly when both parts are. */
  lemma BlankConcat(a: string, b: string)
    ensures IsBlank(a + b) <==> IsBlank(a) && IsBlank(b)
  {
    if IsBlank(a + b) {
      forall i | 0 <= i < |a|
        ensures IsTrimmable(a[i])
      {
        assert a[i] == (a + b)[i];
      }
      forall i | 0 <= i < |b|
        ensures IsTrimmable(b[i])
      {
        assert b[i] == (a + b)[|a| + i];
      }
    }
  }

  /** `s.trimStart()`: the suffix left after dropping leading trimmable
      characters. */
  function TrimStart(s: string): (r: string)
    ensures |r| <= |s| && r == s[|s| - |r|..]
    ensures IsBlank(s[..|s| - |r|])
    ensures r == [] || !IsTrimmable(r[0])
    decreases |s|
  {
    if s != [] && IsTrimmable(s[0]) then
      var t := s[1..];
      var r := TrimStart(t);
      var k := |s| - |r|;
      assert t[k - 1..] == s[k..];
      assert IsBlank(t[..k - 1]);
      assert IsBlank([s[0]]);
      assert s[..k] == [s[0]] + t[..k - 1];
      BlankConcat([s[0]], t[..k - 1]);
      r
    else s
  }

  /** `s.trimEnd()`: the prefix left after dropping trailing trimmable
      characters. */
  function TrimEnd(s: string): (r: string)
    ensures |r| <= |s| && r == s[..|r|]
    ensures IsBlank(s[|r|..])
    ensures r == [] || !IsTrimmable(r[|r| - 1])
    decreases |s|
  {
    if s != [] && IsTrimmable(s[|s| - 1]) then
      var init := s[..|s| - 1];
      var r := TrimEnd(init);
      assert init[..|r|] == s[..|r|];
      assert s[|r|..] == init[|r|..] + [s[|s| - 1]];
      BlankConcat(init[|r|..], [s[|s| - 1]]);
      r
    else s
  }

  /** The slice left by trimming both ends sits at `k` in `s`, with only
      trimmable characters around it. */
  lemma TrimSlice(s: string, front: string, r: string, k: nat)
    requires front == TrimStart(s) && r == TrimEnd(front) && k == |s| - |front|
    ensures OccursAt(s, r, k) && IsBlank(s[..k]) && IsBlank(s[k + |r|..])
  {
    assert s[k..k + |r|] == front[..|r|];
    assert s[k + |r|..] == front[|r|..];
  }

  /** Trimming both ends leaves nothing exactly for a blank string. */
  lemma TrimEmpty(s: string, front: string, r: string, k: nat)
    requires front == TrimStart(s) && r == TrimEnd(front) && k == |s| - |front|
    ensures r == [] <==> IsBlank(s)
  {
    if r == [] {
      assert IsBlank(s[..k]);
      assert front[|r|..] == front;
      assert IsBlank(front);
      BlankConcat(s[..k], front);
      assert s == s[..k] + front;
    } else {
      assert r[0] == front[0];
      assert s[k] == front[0];
      assert !IsTrimmable(s[k]);
    }
  }

  /** `s.trim()`: empty exactly when every character of `s` is trimmable,
      otherwise starting and ending with a character that is not; it is the
      slice of `s` that `TrimSlice` locates. */
  function Trim(s: string): (r: string)
    ensures r == [] <==> IsBlank(s)
    ensures r != [] ==> !IsTrimmable(r[0]) && !IsTrimmable(r[|r| - 1])
  {
    var front := TrimStart(s);
    var r := TrimEnd(front);
    TrimEmpty(s, front, r, |s| - |front|);
    r
  }

  predicate NotComma(c: char) {
    c != ','
  }

  /** `s.replace(/,/g, '')`: every comma removed, everything else kept in
      order. */
  function StripCommas(s: string): (r: string)
    ensures ',' !in r
    ensures IsSubsequence(r, s)
    ensures forall c :: c != ',' ==> multiset(r)[c] == multiset(s)[c]
  {
    Filter(s, NotComma)
  }

  /** Stripping is idempotent, and a string without commas is left alone. */
  lemma StripCommasIdempotent(s: string)
    ensures StripCommas(StripCommas(s)) == StripCommas(s)
  {
    FilterKeepsAll(StripCommas(s), NotComma);
  }

  /** A comma-free prefix passes through untouched. */
  lemma StripCommasKeepsPrefix(d: string, s: string)
    requires ',' !in d
    ensures StripCommas(d + s) == d + StripCommas(s)
  {
    FilterAppend(d, s, NotComma);
    FilterKeepsAll(d, NotComma);
  }
}
