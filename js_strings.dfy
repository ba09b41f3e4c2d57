/**
 * The JavaScript string operations the site relies on, over `string`
 * (a sequence of code points): `Number#toString` for integers,
 * `Array#join`, `String#split` on one character, `String#trim`,
 * `String#indexOf` and `String#replace` with a string pattern.
 */
module JsStrings {
  import opened Wrappers

  // ------------------------------------------------------------------
  // Decimal text of integers

  predicate IsDigit(c: char) {
    '0' <= c <= '9'
  }

  predicate AllDigits(s: string) {
    forall i :: 0 <= i < |s| ==> IsDigit(s[i])
  }

  function DigitChar(d: nat): (c: char)
    requires d <= 9
    ensures IsDigit(c)
  {
    (48 + d) as char
  }

  function DigitValue(c: char): (d: nat)
    requires IsDigit(c)
    ensures d <= 9
  {
    c as int - 48
  }

  /** The decimal digits of `n`, without leading zeros. */
  function NatToString(n: nat): (s: string)
    ensures |s| > 0 && AllDigits(s)
    ensures s[0] == '0' <==> n == 0
    decreases n
  {
    if n < 10 then [DigitChar(n)] else NatToString(n / 10) + [DigitChar(n % 10)]
  }

  /** `Number#toString()` of an integral number: a minus sign for negatives, then the digits. */
  function IntToString(n: int): (s: string)
    ensures |s| > 0
    ensures s[0] == '-' <==> n < 0
    ensures AllDigits(if n < 0 then s[1..] else s)
  {
    if n < 0 then "-" + NatToString(-n) else NatToString(n)
  }

  /** The value of a run of decimal digits, most significant first. */
  function DigitsValue(s: string): nat
    requires AllDigits(s)
  {
    if |s| == 0 then 0 else DigitsValue(s[..|s| - 1]) * 10 + DigitValue(s[|s| - 1])
  }

  lemma {:induction false} DigitsValueOfNatToString(n: nat)
    ensures DigitsValue(NatToString(n)) == n
    decreases n
  {
    if n >= 10 {
      var s := NatToString(n);
      assert s[..|s| - 1] == NatToString(n / 10);
      DigitsValueOfNatToString(n / 10);
    }
  }

  // ------------------------------------------------------------------
  // Array#join and String#split

  /** `parts.join(sep)`. */
  function Join(parts: seq<string>, sep: string): string
  {
    if |parts| == 0 then ""
    else if |parts| == 1 then parts[0]
    else parts[0] + sep + Join(parts[1..], sep)
  }

  /** Joining one more part appends the separator and that part. */
  lemma {:induction false} JoinSnoc(parts: seq<string>, last: string, sep: string)
    requires |parts| > 0
    ensures Join(parts + [last], sep) == Join(parts, sep) + sep + last
    decreases |parts|
  {
    if |parts| == 1 {
      assert (parts + [last])[1..] == [last];
    } else {
      assert (parts + [last])[1..] == parts[1..] + [last];
      JoinSnoc(parts[1..], last, sep);
    }
  }

  /** The first part is a prefix of the joined text. */
  lemma {:induction false} JoinStartsWithFirst(parts: seq<string>, sep: string)
    requires |parts| > 0
    ensures |parts[0]| <= |Join(parts, sep)|
    ensures Join(parts, sep)[..|parts[0]|] == parts[0]
  {
    if |parts| > 1 {
      var j := Join(parts, sep);
      assert j == parts[0] + (sep + Join(parts[1..], sep));
    }
  }

  /** A part that holds the separator joins to the same text as its two halves side by side. */
  lemma {:induction false} JoinInsideSep(a: seq<string>, x: string, y: string, b: seq<string>, sep: string)
    ensures Join(a + [x + sep + y] + b, sep) == Join(a + [x, y] + b, sep)
    decreases |a|
  {
    if |a| == 0 {
      assert a + [x + sep + y] + b == [x + sep + y] + b;
      assert a + [x, y] + b == [x, y] + b;
      assert ([x, y] + b)[1..] == [y] + b;
      if |b| == 0 {
        assert [x + sep + y] + b == [x + sep + y];
        assert [y] + b == [y];
      } else {
        assert ([x + sep + y] + b)[1..] == b;
        assert ([y] + b)[1..] == b;
      }
    } else {
      JoinInsideSep(a[1..], x, y, b, sep);
      assert (a + [x + sep + y] + b)[1..] == a[1..] + [x + sep + y] + b;
      assert (a + [x, y] + b)[1..] == a[1..] + [x, y] + b;
    }
  }

  /** `s.split(c)`: the pieces between occurrences of `c`; the empty text gives `[""]`. */
  function Split(s: string, c: char): (r: seq<string>)
    ensures |r| > 0
    ensures forall i :: 0 <= i < |r| ==> c !in r[i]
    decreases |s|
  {
    if |s| == 0 then [""]
    else
      var rest := Split(s[1..], c);
      if s[0] == c then [""] + rest else [[s[0]] + rest[0]] + rest[1..]
  }

  /** Joining the pieces of a split with the same character gives back the text. */
  lemma {:induction false} JoinSplit(s: string, c: char)
    ensures Join(Split(s, c), [c]) == s
    decreases |s|
  {
    if |s| > 0 {
      var rest := Split(s[1..], c);
      JoinSplit(s[1..], c);
      if s[0] == c {
        assert ([""] + rest)[1..] == rest;
      } else if |rest| > 1 {
        assert ([[s[0]] + rest[0]] + rest[1..])[1..] == rest[1..];
      }
    }
  }

  lemma {:induction false} SplitWithout(a: string, c: char)
    requires c !in a
    ensures Split(a, c) == [a]
    decreases |a|
  {
    if |a| > 0 {
      assert c !in a[1..] by {
        forall i | 0 <= i < |a| - 1 ensures a[1..][i] != c {
          assert a[1..][i] == a[i + 1];
        }
      }
      SplitWithout(a[1..], c);
      assert [a[0]] + a[1..] == a;
    }
  }

  lemma {:induction false} SplitAtFirst(a: string, c: char, b: string)
    requires c !in a
    ensures Split(a + [c] + b, c) == [a] + Split(b, c)
    decreases |a|
  {
    var s := a + [c] + b;
    if |a| == 0 {
      assert s[1..] == b;
    } else {
      assert s[1..] == a[1..] + [c] + b;
      assert c !in a[1..] by {
        forall i | 0 <= i < |a| - 1 ensures a[1..][i] != c {
          assert a[1..][i] == a[i + 1];
        }
      }
      SplitAtFirst(a[1..], c, b);
      assert [a[0]] + a[1..] == a;
    }
  }

  /** Splitting a text joined from pieces free of `c` recovers the pieces. */
  lemma {:induction false} SplitJoin(parts: seq<string>, c: char)
    requires |parts| > 0
    requires forall i :: 0 <= i < |parts| ==> c !in parts[i]
    ensures Split(Join(parts, [c]), c) == parts
    decreases |parts|
  {
    if |parts| == 1 {
      SplitWithout(parts[0], c);
    } else {
      SplitJoin(parts[1..], c);
      SplitAtFirst(parts[0], c, Join(parts[1..], [c]));
      assert Join(parts, [c]) == parts[0] + [c] + Join(parts[1..], [c]);
      assert [parts[0]] + parts[1..] == parts;
    }
  }

  // ------------------------------------------------------------------
  // String#trim

  /** The WhiteSpace and LineTerminator code points that `String#trim` removes. */
  predicate IsJsWhitespace(c: char) {
    c == '\t' || c == '\n' || c == '\U{000B}' || c == '\U{000C}' || c == '\r' || c == ' '
    || c == '\U{00A0}' || c == '\U{1680}' || ('\U{2000}' <= c <= '\U{200A}')
    || c == '\U{2028}' || c == '\U{2029}' || c == '\U{202F}' || c == '\U{205F}'
    || c == '\U{3000}' || c == '\U{FEFF}'
  }

  predicate AllWhitespace(s: string) {
    forall i :: 0 <= i < |s| ==> IsJsWhitespace(s[i])
  }

  /** The number of whitespace code points at the start of `s`. */
  function LeadingSpace(s: string): (n: nat)
    ensures n <= |s|
    ensures AllWhitespace(s[..n])
    ensures n < |s| ==> !IsJsWhitespace(s[n])
    decreases |s|
  {
    if |s| > 0 && IsJsWhitespace(s[0]) then
      var n := 1 + LeadingSpace(s[1..]);
      assert forall i :: 1 <= i < n ==> s[..n][i] == s[1..][..n - 1][i - 1];
      n
    else 0
  }

  /** The number of whitespace code points at the end of `s`. */
  function TrailingSpace(s: string): (n: nat)
    ensures n <= |s|
    ensures AllWhitespace(s[|s| - n..])
    ensures n < |s| ==> !IsJsWhitespace(s[|s| - 1 - n])
    decreases |s|
  {
    if |s| > 0 && IsJsWhitespace(s[|s| - 1]) then
      var init := s[..|s| - 1];
      var n := 1 + TrailingSpace(init);
      n
    else 0
  }

  /**
   * `s.trim()`: `s` without its leading and trailing whitespace. The result is
   * the slice of `s` that starts after the leading whitespace; it is empty exactly
   * when `s` is all whitespace, and otherwise it neither starts nor ends with
   * whitespace.
   */
  function Trim(s: string): (r: string)
    ensures LeadingSpace(s) + |r| <= |s|
    ensures r == s[LeadingSpace(s)..LeadingSpace(s) + |r|]
    ensures AllWhitespace(s[LeadingSpace(s) + |r|..])
    ensures r == "" <==> AllWhitespace(s)
    ensures r != "" ==> !IsJsWhitespace(r[0]) && !IsJsWhitespace(r[|r| - 1])
  {
    var a := LeadingSpace(s);
    var rest := s[a..];
    var b := TrailingSpace(rest);
    assert a < |s| ==> b < |rest|;
    assert AllWhitespace(s) ==> a == |s|;
    assert a == |s| ==> AllWhitespace(s) by {
      if a == |s| {
        assert s[..a] == s;
      }
    }
    assert s[a + (|rest| - b)..] == rest[|rest| - b..];
    rest[..|rest| - b]
  }

  /** A text that neither starts nor ends with whitespace is its own trim. */
  lemma TrimOfUnpadded(s: string)
    requires s != "" ==> !IsJsWhitespace(s[0]) && !IsJsWhitespace(s[|s| - 1])
    ensures Trim(s) == s
  {
    if s != "" {
      assert LeadingSpace(s) == 0;
      assert TrailingSpace(s) == 0;
      assert s[0..] == s;
    }
  }

  /** Whitespace padding around a text whose ends are not whitespace is what trim removes. */
  lemma {:induction false} TrimOfPadded(pre: string, mid: string, post: string)
    requires AllWhitespace(pre) && AllWhitespace(post)
    requires mid != "" && !IsJsWhitespace(mid[0]) && !IsJsWhitespace(mid[|mid| - 1])
    ensures Trim(pre + mid + post) == mid
  {
    var s := pre + mid + post;
    LeadingOfPadded(pre, mid + post);
    assert s == pre + (mid + post);
    assert s[|pre|..] == mid + post;
    TrailingOfPadded(mid, post);
  }

  lemma {:induction false} LeadingOfPadded(pre: string, rest: string)
    requires AllWhitespace(pre)
    requires rest != "" && !IsJsWhitespace(rest[0])
    ensures LeadingSpace(pre + rest) == |pre|
    decreases |pre|
  {
    if |pre| > 0 {
      assert (pre + rest)[1..] == pre[1..] + rest;
      LeadingOfPadded(pre[1..], rest);
    } else {
      assert pre + rest == rest;
    }
  }

  lemma {:induction false} TrailingOfPadded(mid: string, post: string)
    requires AllWhitespace(post)
    requires mid != "" && !IsJsWhitespace(mid[|mid| - 1])
    ensures TrailingSpace(mid + post) == |post|
    decreases |post|
  {
    if |post| > 0 {
      var s := mid + post;
      assert s[..|s| - 1] == mid + post[..|post| - 1];
      TrailingOfPadded(mid, post[..|post| - 1]);
    } else {
      assert mid + post == mid;
    }
  }

  // ------------------------------------------------------------------
  // String#indexOf and String#replace with a string pattern

  predicate OccursAt(s: string, p: string, j: int) {
    0 <= j && j + |p| <= |s| && s[j..j + |p|] == p
  }

  function IndexOfFrom(s: string, p: string, k: nat): (r: Option<nat>)
    requires k <= |s| + 1
    ensures r.Some? ==> k <= r.value && OccursAt(s, p, r.value)
    ensures r.Some? ==> forall j :: k <= j < r.value ==> !OccursAt(s, p, j)
    ensures r.None? ==> forall j :: k <= j ==> !OccursAt(s, p, j)
    decreases |s| + 1 - k
  {
    if k + |p| > |s| then None
    else if s[k..k + |p|] == p then Some(k)
    else IndexOfFrom(s, p, k + 1)
  }

  /** `s.indexOf(p)`: the first position where `p` occurs in `s`, if any. */
  function IndexOf(s: string, p: string): (r: Option<nat>)
    ensures r.Some? ==> OccursAt(s, p, r.value)
    ensures r.Some? ==> forall j :: 0 <= j < r.value ==> !OccursAt(s, p, j)
    ensures r.None? ==> forall j :: !OccursAt(s, p, j)
  {
    IndexOfFrom(s, p, 0)
  }

  /**
   * The replacement text `String#replace` inserts for a match (GetSubstitution
   * with no capture groups): `$$` is `$`, `$&` the match, `` $` `` the text before
   * it and `$'` the text after it; every other character, `$` included, stands
   * for itself.
   */
  function Substitution(template: string, matched: string, before: string, after: string): string
    decreases |template|
  {
    if |template| == 0 then ""
    else if template[0] == '$' && |template| >= 2 && template[1] in "$&`'" then
      var piece := if template[1] == '$' then "$"
        else if template[1] == '&' then matched
        else if template[1] == '`' then before
        else after;
      piece + Substitution(template[2..], matched, before, after)
    else [template[0]] + Substitution(template[1..], matched, before, after)
  }

  /** A replacement without `$` is inserted literally. */
  lemma {:induction false} SubstitutionLiteral(template: string, matched: string, before: string, after: string)
    requires '$' !in template
    ensures Substitution(template, matched, before, after) == template
    decreases |template|
  {
    if |template| > 0 {
      assert '$' !in template[1..] by {
        forall i | 0 <= i < |template| - 1 ensures template[1..][i] != '$' {
          assert template[1..][i] == template[i + 1];
        }
      }
      SubstitutionLiteral(template[1..], matched, before, after);
      assert [template[0]] + template[1..] == template;
    }
  }

  /** `s.replace(p, replacement)` with a string pattern: only the first occurrence is replaced. */
  function ReplaceFirst(s: string, p: string, replacement: string): (r: string)
    ensures IndexOf(s, p).None? ==> r == s
  {
    match IndexOf(s, p)
    case None => s
    case Some(i) => s[..i] + Substitution(replacement, p, s[..i], s[i + |p|..]) + s[i + |p|..]
  }

  /**
   * Replacing the first occurrence of `p` in `before + p + after`, where `p` does
   * not occur earlier, inserts the replacement between `before` and `after` and
   * leaves `after` (and any later occurrence of `p` in it) untouched.
   */
  lemma ReplaceFirstAt(before: string, p: string, after: string, replacement: string)
    requires forall j :: 0 <= j < |before| ==> !OccursAt(before + p + after, p, j)
    requires '$' !in replacement
    ensures ReplaceFirst(before + p + after, p, replacement) == before + replacement + after
  {
    var s := before + p + after;
    assert OccursAt(s, p, |before|) by {
      assert s[|before|..|before| + |p|] == p;
    }
    var i := IndexOf(s, p).value;
    assert i == |before|;
    assert s[..i] == before;
    assert s[i + |p|..] == after;
    SubstitutionLiteral(replacement, p, before, after);
  }

  /** When the first character of `p` does not occur in `before`, `p` cannot occur earlier. */
  lemma NoEarlierOccurrence(before: string, p: string, after: string)
    requires p != "" && p[0] !in before
    ensures forall j :: 0 <= j < |before| ==> !OccursAt(before + p + after, p, j)
  {
    var s := before + p + after;
    forall j | 0 <= j < |before|
      ensures !OccursAt(s, p, j)
    {
      assert s[j] == before[j];
    }
  }
}
