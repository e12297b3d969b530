/**
 * The two string operations of the launcher: `String.equalsIgnoreCase` and
 * `String.replaceAll` with a regular expression made of literal characters and
 * the wildcard `.` (which matches any character but a line terminator).
 */
module Text {

  /** Lower-casing of the ASCII letters; every other character is left as it is. */
  function LowerAscii(c: char): char
  {
    if 'A' <= c <= 'Z' then (c as int - 'A' as int + 'a' as int) as char else c
  }

  predicate SameIgnoringCase(a: char, b: char)
  {
    LowerAscii(a) == LowerAscii(b)
  }

  /** `a.equalsIgnoreCase(b)` with ASCII case folding only, comparing character by character. */
  function EqualsIgnoreCase(a: string, b: string): (r: bool)
    ensures r <==> |a| == |b| && forall i :: 0 <= i < |a| ==> SameIgnoringCase(a[i], b[i])
    decreases |a|
  {
    if |a| != |b| then false
    else if |a| == 0 then true
    else
      assert forall i :: 1 <= i < |a| ==> a[i] == a[1..][i - 1] && b[i] == b[1..][i - 1];
      SameIgnoringCase(a[0], b[0]) && EqualsIgnoreCase(a[1..], b[1..])
  }

  /** The values that `"true".equalsIgnoreCase(s)` accepts. */
  lemma TrueIgnoringCase(s: string)
    ensures EqualsIgnoreCase("true", s) <==>
              |s| == 4 && (s[0] == 't' || s[0] == 'T') && (s[1] == 'r' || s[1] == 'R')
              && (s[2] == 'u' || s[2] == 'U') && (s[3] == 'e' || s[3] == 'E')
  {
  }

  /** One position of a pattern: a literal character or the wildcard `.`. */
  datatype Atom = Literal(c: char) | AnyChar

  predicate IsLineTerminator(c: char)
  {
    c == '\n' || c == '\r' || c == '\U{85}' || c == '\U{2028}' || c == '\U{2029}'
  }

  predicate AtomMatches(a: Atom, c: char)
  {
    match a
    case Literal(x) => c == x
    case AnyChar => !IsLineTerminator(c)
  }

  /** The pattern written `text` in a regular expression where only `.` is special. */
  function WithWildcards(text: string): (p: seq<Atom>)
    ensures |p| == |text|
    ensures forall k :: 0 <= k < |text| ==> p[k] == if text[k] == '.' then AnyChar else Literal(text[k])
  {
    seq(|text|, k requires 0 <= k < |text| => if text[k] == '.' then AnyChar else Literal(text[k]))
  }

  predicate MatchesAt(s: string, pattern: seq<Atom>, i: nat)
  {
    i + |pattern| <= |s| && forall k :: 0 <= k < |pattern| ==> AtomMatches(pattern[k], s[i + k])
  }

  /** `s.replaceAll(pattern, replacement)`: leftmost, non-overlapping matches, replacement taken literally. */
  function ReplaceAll(s: string, pattern: seq<Atom>, replacement: string): string
    requires |pattern| > 0
    decreases |s|
  {
    if |s| == 0 then []
    else if MatchesAt(s, pattern, 0) then replacement + ReplaceAll(s[|pattern|..], pattern, replacement)
    else [s[0]] + ReplaceAll(s[1..], pattern, replacement)
  }

  lemma MatchShift(s: string, pattern: seq<Atom>, i: nat)
    requires |s| > 0
    ensures MatchesAt(s[1..], pattern, i) <==> MatchesAt(s, pattern, i + 1)
  {
    if i + |pattern| <= |s[1..]| {
      assert forall k :: 0 <= k < |pattern| ==> (AtomMatches(pattern[k], s[1..][i + k]) <==> AtomMatches(pattern[k], s[i + 1 + k]));
    }
  }

  /** Text in which the pattern never matches is left unchanged. */
  lemma {:induction false} ReplaceAllWithoutMatch(s: string, pattern: seq<Atom>, replacement: string)
    requires |pattern| > 0
    requires forall i :: 0 <= i < |s| ==> !MatchesAt(s, pattern, i)
    ensures ReplaceAll(s, pattern, replacement) == s
  {
    if |s| > 0 {
      assert !MatchesAt(s, pattern, 0);
      forall i | 0 <= i < |s[1..]|
        ensures !MatchesAt(s[1..], pattern, i)
      {
        MatchShift(s, pattern, i);
      }
      ReplaceAllWithoutMatch(s[1..], pattern, replacement);
    }
  }

  /** The text before the first match is kept, the match is replaced and the rest is processed alike. */
  lemma {:induction false} ReplaceAllAtFirstMatch(x: string, m: string, y: string, pattern: seq<Atom>, replacement: string)
    requires |pattern| > 0 && |m| == |pattern|
    requires MatchesAt(x + m + y, pattern, |x|)
    requires forall i :: 0 <= i < |x| ==> !MatchesAt(x + m + y, pattern, i)
    ensures ReplaceAll(x + m + y, pattern, replacement) == x + replacement + ReplaceAll(y, pattern, replacement)
    decreases |x|
  {
    var s := x + m + y;
    if |x| == 0 {
      assert s == m + y && s[|pattern|..] == y;
    } else {
      assert !MatchesAt(s, pattern, 0);
      FirstMatchShift(x, m, y, pattern);
      ReplaceAllAtFirstMatch(x[1..], m, y, pattern, replacement);
      assert ReplaceAll(s, pattern, replacement) == [s[0]] + ReplaceAll(s[1..], pattern, replacement);
      assert s[0] == x[0] && x == [x[0]] + x[1..];
    }
  }

  /** Dropping the first character of the text before the first match keeps that match the first one. */
  lemma FirstMatchShift(x: string, m: string, y: string, pattern: seq<Atom>)
    requires |x| > 0
    requires MatchesAt(x + m + y, pattern, |x|)
    requires forall i :: 0 <= i < |x| ==> !MatchesAt(x + m + y, pattern, i)
    ensures (x + m + y)[1..] == x[1..] + m + y
    ensures MatchesAt(x[1..] + m + y, pattern, |x[1..]|)
    ensures forall i :: 0 <= i < |x[1..]| ==> !MatchesAt(x[1..] + m + y, pattern, i)
  {
    var s := x + m + y;
    assert s[1..] == x[1..] + m + y;
    forall i | 0 <= i < |x[1..]|
      ensures !MatchesAt(x[1..] + m + y, pattern, i)
    {
      MatchShift(s, pattern, i);
    }
    MatchShift(s, pattern, |x| - 1);
  }

  /** A one-character literal pattern matches exactly where that character stands. */
  lemma MatchesLiteralChar(s: string, c: char)
    ensures MatchesAt(s, [Literal(c)], 0) <==> |s| > 0 && s[0] == c
  {
    if |s| > 0 {
      assert AtomMatches([Literal(c)][0], s[0 + 0]) <==> s[0] == c;
    }
  }

  /** Replacing a single literal character distributes over concatenation. */
  lemma {:induction false} ReplaceCharConcat(a: string, b: string, c: char, replacement: string)
    ensures ReplaceAll(a + b, [Literal(c)], replacement)
         == ReplaceAll(a, [Literal(c)], replacement) + ReplaceAll(b, [Literal(c)], replacement)
    decreases |a|
  {
    if |a| == 0 {
      assert a + b == b;
    } else {
      assert (a + b)[0] == a[0] && (a + b)[1..] == a[1..] + b;
      MatchesLiteralChar(a + b, c);
      MatchesLiteralChar(a, c);
      ReplaceCharConcat(a[1..], b, c, replacement);
    }
  }

  /** Replacing a single literal character: the character itself becomes the replacement, any other stays. */
  lemma ReplaceCharSingle(d: char, c: char, replacement: string)
    ensures ReplaceAll([d], [Literal(c)], replacement) == if d == c then replacement else [d]
  {
    assert [d][1..] == [];
    MatchesLiteralChar([d], c);
  }

  /** A character found neither in the text nor in the replacement is not in the result. */
  lemma {:induction false} ReplaceAllKeepsOut(s: string, pattern: seq<Atom>, replacement: string, ch: char)
    requires |pattern| > 0 && ch !in s && ch !in replacement
    ensures ch !in ReplaceAll(s, pattern, replacement)
    decreases |s|
  {
    if |s| > 0 {
      if MatchesAt(s, pattern, 0) {
        ReplaceAllKeepsOut(s[|pattern|..], pattern, replacement, ch);
      } else {
        ReplaceAllKeepsOut(s[1..], pattern, replacement, ch);
      }
    }
  }

  /** A one-character literal pattern never matches in text that lacks the character. */
  lemma NoLiteralMatch(s: string, c: char)
    requires c !in s
    ensures forall i :: 0 <= i < |s| ==> !MatchesAt(s, [Literal(c)], i)
  {
    forall i | 0 <= i < |s| ensures !MatchesAt(s, [Literal(c)], i) {
      assert s[i] != c && [Literal(c)][0] == Literal(c);
    }
  }

  /** After replacing every `c`, no `c` is left unless the replacement brings one. */
  lemma {:induction false} ReplaceCharRemovesIt(s: string, c: char, replacement: string)
    requires c !in replacement
    ensures c !in ReplaceAll(s, [Literal(c)], replacement)
    decreases |s|
  {
    if |s| > 0 {
      MatchesLiteralChar(s, c);
      ReplaceCharRemovesIt(s[1..], c, replacement);
    }
  }
}
