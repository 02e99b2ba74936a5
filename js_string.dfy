/** The two JavaScript string operations the outline prompt is built with:
    `String.prototype.replace` with a string pattern, and `Number.prototype.toString`
    on an integer. */
module JsString {
  import opened Wrappers

  /** `pattern` occurs in `s` starting at index `i`. */
  predicate OccursAt(s: string, pattern: string, i: nat)
  {
    i + |pattern| <= |s| && s[i..i + |pattern|] == pattern
  }

  /** First occurrence of `pattern` in `s` at or after `from`. */
  function IndexFrom(s: string, pattern: string, from: nat): (r: Option<nat>)
    decreases |s| - from
    ensures r.Some? ==> from <= r.value && OccursAt(s, pattern, r.value)
    ensures r.Some? ==> forall j :: from <= j < r.value ==> !OccursAt(s, pattern, j)
    ensures r.None? ==> forall j :: from <= j ==> !OccursAt(s, pattern, j)
  {
    if from + |pattern| > |s| then None
    else if s[from..from + |pattern|] == pattern then Some(from)
    else IndexFrom(s, pattern, from + 1)
  }

  /** `s.indexOf(pattern)`, the position `replace` substitutes at. */
  function IndexOf(s: string, pattern: string): (r: Option<nat>)
    ensures r.Some? ==> OccursAt(s, pattern, r.value)
    ensures r.Some? ==> forall j :: 0 <= j < r.value ==> !OccursAt(s, pattern, j)
    ensures r.None? ==> forall j :: 0 <= j ==> !OccursAt(s, pattern, j)
  {
    IndexFrom(s, pattern, 0)
  }

  /** The replacement text ECMAScript's GetSubstitution builds for a match of a string
      pattern (which has no capture groups): `$$` is `$`, `$&` the matched text,
      `` $` `` the text before the match, `$'` the text after it; every other `$`
      (including `$1` and `$<`) stands for itself. */
  function Substitution(template: string, matched: string, before: string, after: string): string
    decreases |template|
  {
    if template == [] then []
    else if template[0] == '$' && |template| >= 2 && template[1] in "$&`'" then
      (if template[1] == '$' then "$"
       else if template[1] == '&' then matched
       else if template[1] == '`' then before
       else after)
      + Substitution(template[2..], matched, before, after)
    else [template[0]] + Substitution(template[1..], matched, before, after)
  }

  /** A replacement with no `$` is inserted verbatim. */
  lemma {:induction false} SubstitutionPlain(template: string, matched: string, before: string, after: string)
    requires '$' !in template
    ensures Substitution(template, matched, before, after) == template
  {
    if template != [] {
      assert '$' !in template[1..];
      SubstitutionPlain(template[1..], matched, before, after);
    }
  }

  /** `s.replace(pattern, replacement)` with a string pattern: only the first occurrence is
      replaced; with no occurrence the string is returned unchanged. */
  function ReplaceFirst(s: string, pattern: string, replacement: string): (r: string)
    ensures IndexOf(s, pattern).None? ==> r == s
    ensures IndexOf(s, pattern).Some? && '$' !in replacement ==>
      var i := IndexOf(s, pattern).value;
      r == s[..i] + replacement + s[i + |pattern|..]
    ensures IndexOf(s, pattern).Some? ==>
      var i := IndexOf(s, pattern).value;
      |r| >= i + |s| - (i + |pattern|) &&
      r[..i] == s[..i] && r[|r| - (|s| - (i + |pattern|))..] == s[i + |pattern|..]
  {
    match IndexOf(s, pattern)
    case None => s
    case Some(i) =>
      var before, after := s[..i], s[i + |pattern|..];
      assert '$' !in replacement ==> Substitution(replacement, pattern, before, after) == replacement by {
        if '$' !in replacement { SubstitutionPlain(replacement, pattern, before, after); }
      }
      var r := before + Substitution(replacement, pattern, before, after) + after;
      assert r[|r| - |after|..] == after;
      r
  }

  /** An occurrence with none before it is the one `IndexOf` finds. */
  lemma IndexOfFirst(s: string, pattern: string, k: nat)
    requires OccursAt(s, pattern, k)
    requires forall j: nat :: j < k ==> !OccursAt(s, pattern, j)
    ensures IndexOf(s, pattern) == Some(k)
  {
  }

  /** Replacing the first occurrence keeps any prefix that ends before it and any suffix
      that starts after it. */
  lemma ReplaceFirstAffixes(s: string, pattern: string, replacement: string, lo: nat, hi: nat)
    requires IndexOf(s, pattern).Some?
    requires lo <= IndexOf(s, pattern).value
    requires IndexOf(s, pattern).value + |pattern| + hi <= |s|
    ensures var r := ReplaceFirst(s, pattern, replacement);
      |r| >= lo + hi && r[..lo] == s[..lo] && r[|r| - hi..] == s[|s| - hi..]
  {
    var i := IndexOf(s, pattern).value;
    var r := ReplaceFirst(s, pattern, replacement);
    var after := s[i + |pattern|..];
    assert r[..lo] == r[..i][..lo];
    assert r[|r| - hi..] == r[|r| - |after|..][|after| - hi..];
    assert s[|s| - hi..] == after[|after| - hi..];
  }

  /** Replacing a known first occurrence by `$`-free text splices the text in its place. */
  lemma ReplaceFirstSplice(a: string, pattern: string, b: string, replacement: string)
    requires IndexOf(a + pattern + b, pattern) == Some(|a|) && '$' !in replacement
    ensures ReplaceFirst(a + pattern + b, pattern, replacement) == a + replacement + b
  {
    var s := a + pattern + b;
    assert s[..|a|] == a;
    assert s[|a| + |pattern|..] == b;
  }

  /** An occurrence in `b` is an occurrence in `a + b`, shifted by `|a|`. */
  lemma OccursAtShift(a: string, b: string, pattern: string, j: nat)
    ensures OccursAt(a + b, pattern, |a| + j) <==> OccursAt(b, pattern, j)
  {
    if j + |pattern| <= |b| {
      assert (a + b)[|a| + j..|a| + j + |pattern|] == b[j..j + |pattern|];
    }
  }

  /** When the pattern's first character does not occur in `a`, searching `a + b` finds
      what searching `b` finds, shifted past `a`. */
  lemma IndexOfAfterPrefix(a: string, b: string, pattern: string)
    requires |pattern| > 0 && pattern[0] !in a
    ensures IndexOf(a + b, pattern) ==
      (if IndexOf(b, pattern).Some? then Some(|a| + IndexOf(b, pattern).value) else None)
  {
    var s := a + b;
    forall j: nat | j < |a| ensures !OccursAt(s, pattern, j) {
      assert s[j] == a[j];
      if j + |pattern| <= |s| {
        assert s[j..j + |pattern|][0] == a[j];
      }
    }
    match IndexOf(b, pattern)
    case None =>
      forall j: nat | j >= |a| ensures !OccursAt(s, pattern, j) {
        OccursAtShift(a, b, pattern, j - |a|);
      }
    case Some(i) =>
      OccursAtShift(a, b, pattern, i);
      forall j: nat | j < |a| + i ensures !OccursAt(s, pattern, j) {
        if j >= |a| {
          OccursAtShift(a, b, pattern, j - |a|);
          assert !OccursAt(b, pattern, j - |a|);
        }
      }
      IndexOfFirst(s, pattern, |a| + i);
  }

  /** The first occurrence in `a` stays the first occurrence whatever follows `a`. */
  lemma IndexOfExtend(a: string, b: string, pattern: string)
    requires IndexOf(a, pattern).Some?
    ensures IndexOf(a + b, pattern) == IndexOf(a, pattern)
  {
    var i := IndexOf(a, pattern).value;
    var s := a + b;
    assert s[i..i + |pattern|] == a[i..i + |pattern|];
    forall j: nat | j < i ensures !OccursAt(s, pattern, j) {
      assert !OccursAt(a, pattern, j);
      assert s[j..j + |pattern|] == a[j..j + |pattern|];
    }
    IndexOfFirst(s, pattern, i);
  }

  /** The pattern at the very start of `s` is found at 0. */
  lemma IndexOfAtStart(s: string, pattern: string)
    requires pattern <= s
    ensures IndexOf(s, pattern) == Some(0)
  {
    assert OccursAt(s, pattern, 0);
    IndexOfFirst(s, pattern, 0);
  }

  /** If `x` has no occurrence and no occurrence can straddle `x` and `mid` (the first
      character of `mid` is not in the pattern, and the pattern's first character is not
      in `mid`), the first occurrence is the one placed right after `mid`. */
  lemma IndexOfPast(x: string, mid: string, pattern: string, rest: string)
    requires IndexOf(x, pattern).None?
    requires |pattern| > 0 && |mid| > 0 && mid[0] !in pattern && pattern[0] !in mid
    ensures IndexOf(x + mid + pattern + rest, pattern) == Some(|x| + |mid|)
  {
    var s := x + mid + pattern + rest;
    var k := |x| + |mid|;
    assert s[k..k + |pattern|] == pattern;
    forall j: nat | j < k ensures !OccursAt(s, pattern, j) {
      if j < |x| {
        if j + |pattern| <= |x| {
          assert s[j..j + |pattern|] == x[j..j + |pattern|];
          assert !OccursAt(x, pattern, j);
        } else {
          assert s[|x|] == mid[0];
          assert s[j..j + |pattern|][|x| - j] == mid[0];
          assert pattern[|x| - j] != mid[0];
        }
      } else {
        assert s[j] == mid[j - |x|];
        assert s[j..j + |pattern|][0] == s[j];
      }
    }
    IndexOfFirst(s, pattern, k);
  }

  /** Replacing at an occurrence that nothing before it can start: the text before and
      after is kept and the expanded replacement goes in between. */
  lemma ReplaceFirstAt(a: string, pattern: string, b: string, replacement: string)
    requires |pattern| > 0 && pattern[0] !in a
    ensures ReplaceFirst(a + pattern + b, pattern, replacement)
      == a + Substitution(replacement, pattern, a, b) + b
  {
    IndexOfAtStart(pattern + b, pattern);
    assert a + pattern + b == a + (pattern + b);
    IndexOfAfterPrefix(a, pattern + b, pattern);
    var s := a + pattern + b;
    assert s[..|a|] == a;
    assert s[|a| + |pattern|..] == b;
  }

  function DigitChar(d: nat): (c: char)
    requires d < 10
  {
    ('0' as int + d) as char
  }

  /** Decimal digits of `n`, most significant first, with no leading zero. */
  function NatToString(n: nat): (r: string)
    ensures |r| >= 1 && (|r| > 1 ==> r[0] != '0')
    ensures forall i :: 0 <= i < |r| ==> '0' <= r[i] <= '9'
  {
    if n < 10 then [DigitChar(n)] else NatToString(n / 10) + [DigitChar(n % 10)]
  }

  /** `Number.prototype.toString()` of an integer that a double holds exactly (magnitude below
      2^53): its decimal digits, with a minus sign when negative. */
  function IntToString(n: int): (r: string)
    ensures forall i :: 0 <= i < |r| ==> ('0' <= r[i] <= '9') || (i == 0 && r[i] == '-')
    ensures |r| >= 1 && ((r[0] == '-') <==> n < 0)
  {
    if n < 0 then "-" + NatToString(-n) else NatToString(n)
  }

  /** Value of a string of decimal digits. */
  function ParseDigits(s: string): int
  {
    if s == [] then 0 else 10 * ParseDigits(s[..|s| - 1]) + (s[|s| - 1] as int - '0' as int)
  }

  /** Reading the digits back, with an optional leading minus sign. */
  function ParseInt(s: string): int
  {
    if s != [] && s[0] == '-' then -ParseDigits(s[1..]) else ParseDigits(s)
  }

  lemma {:induction false} ParseNatToString(n: nat)
    ensures ParseDigits(NatToString(n)) == n
  {
    if n >= 10 {
      var r := NatToString(n);
      assert r[..|r| - 1] == NatToString(n / 10);
      ParseNatToString(n / 10);
    }
  }

  /** The rendered number reads back as itself. */
  lemma ParseIntToString(n: int)
    ensures ParseInt(IntToString(n)) == n
  {
    if n < 0 {
      assert IntToString(n)[1..] == NatToString(-n);
      ParseNatToString(-n);
    } else {
      ParseNatToString(n);
    }
  }

  /** A rendered integer contains no character that `replace` or the outline
      placeholders treat specially. */
  lemma IntToStringPlain(n: int)
    ensures '$' !in IntToString(n) && '{' !in IntToString(n)
  {
  }
}
