/** The JavaScript built-ins the dashboard's stores and views rely on, stated on Dafny
    sequences: `null`/`undefined` slots, `Array.prototype.filter`, and the `String`
    methods toLowerCase, includes, startsWith, trim, padStart, replace and the decimal
    rendering of numbers. */
module Js {

  /** A nullable slot (`T | null`). */
  datatype Option<+T> = None | Some(value: T)

  // ---------------------------------------------------------------------------
  // Array.prototype.filter

  /** `s.filter(p)`: the elements of `s` that satisfy `p`, in their original order. */
  function Filter<T>(s: seq<T>, p: T -> bool): (r: seq<T>)
    ensures |r| <= |s|
    ensures forall x :: x in r ==> x in s && p(x)
    ensures (forall x :: x in s ==> p(x)) ==> r == s
    ensures (forall x :: x in s ==> !p(x)) ==> r == []
  {
    if s == [] then [] else (if p(s[0]) then [s[0]] else []) + Filter(s[1..], p)
  }

  /** Filtering distributes over concatenation; together with the one-element case this
      pins Filter down as the order-preserving selection. */
  lemma {:induction false} FilterAppend<T>(s: seq<T>, t: seq<T>, p: T -> bool)
    ensures Filter(s + t, p) == Filter(s, p) + Filter(t, p)
  {
    if s == [] {
      assert s + t == t;
    } else {
      assert (s + t)[0] == s[0];
      assert (s + t)[1..] == s[1..] + t;
      FilterAppend(s[1..], t, p);
    }
  }

  /** Every element of `s` that satisfies `p` survives the filter. */
  lemma {:induction false} FilterKeeps<T>(s: seq<T>, p: T -> bool, x: T)
    requires x in s && p(x)
    ensures x in Filter(s, p)
  {
    if s[0] != x {
      FilterKeeps(s[1..], p, x);
    }
  }

  /** Filtering twice by the same predicate is filtering once. */
  lemma {:induction false} FilterIdempotent<T>(s: seq<T>, p: T -> bool)
    ensures Filter(Filter(s, p), p) == Filter(s, p)
  {
    // every element of the filtered sequence satisfies p, so the second pass keeps all
  }

  // ---------------------------------------------------------------------------
  // Characters and String.prototype.toLowerCase

  /** Lower-case mapping of one character: ASCII A-Z and the Latin-1 capitals
      U+00C0..U+00DE (except the multiplication sign U+00D7) move down by 0x20, as
      `toLowerCase` does for them; every other character is left as is. */
  function LowerChar(c: char): (d: char)
    ensures ('a' <= d <= 'z') ==> ('a' <= c <= 'z' || 'A' <= c <= 'Z')
  {
    if 'A' <= c <= 'Z' || ('\U{00C0}' <= c <= '\U{00DE}' && c != '\U{00D7}')
    then (c as int + 32) as char
    else c
  }

  /** `s.toLowerCase()`, character by character. */
  function ToLower(s: string): (r: string)
    ensures |r| == |s|
    ensures forall i :: 0 <= i < |s| ==> r[i] == LowerChar(s[i])
  {
    seq(|s|, i requires 0 <= i < |s| => LowerChar(s[i]))
  }

  /** Lowering is idempotent: a lower-cased string is its own lower case. */
  lemma ToLowerIdempotent(s: string)
    ensures ToLower(ToLower(s)) == ToLower(s)
  {
    forall i | 0 <= i < |s|
      ensures LowerChar(LowerChar(s[i])) == LowerChar(s[i])
    {
    }
  }

  // ---------------------------------------------------------------------------
  // includes, startsWith, trim

  /** `s.startsWith(p)`. */
  predicate StartsWith(s: string, p: string) {
    |p| <= |s| && s[..|p|] == p
  }

  /** `s.includes(sub)`: `sub` occurs in `s` at some position. */
  predicate Contains(s: string, sub: string)
    decreases |s|
  {
    StartsWith(s, sub) || (|s| > 0 && Contains(s[1..], sub))
  }

  /** The ECMAScript WhiteSpace and LineTerminator code points that `trim` removes. */
  predicate IsWhitespace(c: char) {
    c == '\t' || c == '\n' || c == '\U{000B}' || c == '\U{000C}' || c == '\r' || c == ' '
    || c == '\U{00A0}' || c == '\U{1680}' || ('\U{2000}' <= c <= '\U{200A}')
    || c == '\U{2028}' || c == '\U{2029}' || c == '\U{202F}' || c == '\U{205F}'
    || c == '\U{3000}' || c == '\U{FEFF}'
  }

  /** `s.trim() === ''`: every character of `s` is white space (the empty string included). */
  predicate Blank(s: string) {
    forall i :: 0 <= i < |s| ==> IsWhitespace(s[i])
  }

  // ---------------------------------------------------------------------------
  // Number.prototype.toString and String.prototype.padStart

  function DigitChar(d: nat): (c: char)
    requires d < 10
    ensures '0' <= c <= '9'
  {
    ('0' as int + d) as char
  }

  function DigitValue(c: char): nat {
    if '0' <= c <= '9' then c as int - '0' as int else 0
  }

  /** `n.toString()` for a natural number: its decimal digits, without leading zeros. */
  function NatToString(n: nat): (s: string)
    ensures |s| >= 1
    ensures forall i :: 0 <= i < |s| ==> '0' <= s[i] <= '9'
    ensures n >= 10 ==> s[0] != '0'
  {
    if n < 10 then [DigitChar(n)] else NatToString(n / 10) + [DigitChar(n % 10)]
  }

  /** `i.toString()` for an integer: a minus sign before the digits of a negative one. */
  function IntToString(i: int): (s: string)
    ensures |s| >= 1
    ensures (s[0] == '-') <==> i < 0
  {
    if i < 0 then "-" + NatToString(-i) else NatToString(i)
  }

  /** The value of a string of decimal digits (the reading that `toString` inverts). */
  function DecimalValue(s: string): nat {
    if s == [] then 0 else 10 * DecimalValue(s[..|s| - 1]) + DigitValue(s[|s| - 1])
  }

  /** Reading the digits back gives the number: `NatToString` is injective. */
  lemma {:induction false} DecimalValueOfNatToString(n: nat)
    ensures DecimalValue(NatToString(n)) == n
  {
    if n >= 10 {
      var s := NatToString(n);
      assert s[..|s| - 1] == NatToString(n / 10);
      DecimalValueOfNatToString(n / 10);
    }
  }

  function Repeat(c: char, k: nat): (r: string)
    ensures |r| == k
    ensures forall i :: 0 <= i < k ==> r[i] == c
  {
    if k == 0 then [] else [c] + Repeat(c, k - 1)
  }

  /** `s.padStart(width, fill)` with a one-character fill: `fill` repeated in front of `s`
      until the result is `width` long; a string already that long is returned as is. */
  function PadStart(s: string, width: nat, fill: char): (r: string)
    ensures |r| == if |s| >= width then |s| else width
  {
    if |s| >= width then s else Repeat(fill, width - |s|) + s
  }

  /** The padded string ends with the input and is fill characters before it. */
  lemma PadStartShape(s: string, width: nat, fill: char)
    ensures PadStart(s, width, fill)[|PadStart(s, width, fill)| - |s|..] == s
    ensures forall i :: 0 <= i < |PadStart(s, width, fill)| - |s| ==> PadStart(s, width, fill)[i] == fill
  {
    var r := PadStart(s, width, fill);
    if |s| < width {
      assert r[|r| - |s|..] == s;
    }
  }

  /** Leading zeros do not change the value of a digit string. */
  lemma {:induction false} DecimalValueLeadingZeros(k: nat, s: string)
    ensures DecimalValue(Repeat('0', k) + s) == DecimalValue(s)
    decreases |s|, k
  {
    var z := Repeat('0', k);
    if s == [] {
      assert z + s == z;
      if k > 0 {
        assert z[..|z| - 1] == Repeat('0', k - 1) + [];
        DecimalValueLeadingZeros(k - 1, []);
      }
    } else {
      assert (z + s)[..|z + s| - 1] == z + s[..|s| - 1];
      DecimalValueLeadingZeros(k, s[..|s| - 1]);
    }
  }

  /** The two-character counters the views print (`String(n).padStart(2, '0')`) read back
      as the number they were made from, so distinct counts never share a label. */
  lemma PaddedCounterValue(n: nat)
    ensures DecimalValue(PadStart(NatToString(n), 2, '0')) == n
  {
    var s := NatToString(n);
    DecimalValueOfNatToString(n);
    if |s| < 2 {
      DecimalValueLeadingZeros(2 - |s|, s);
    }
  }

  // ---------------------------------------------------------------------------
  // String.prototype.replace with a string pattern (first occurrence only)

  /** `s` has no dollar sign, so as a replacement it is inserted literally. */
  predicate NoDollar(s: string) {
    forall i :: 0 <= i < |s| ==> s[i] != '$'
  }

  /** The characters that make a two-character `$` pattern of a string replacement. */
  predicate Expands(c: char) {
    c == '$' || c == '&' || c == '`' || c == '\''
  }

  /** What the pattern `$c` stands for: `$$` is a dollar sign, `$&` the matched text,
      `` $` `` the text before the match and `$'` the text after it. */
  function Expansion(c: char, matched: string, before: string, after: string): string {
    if c == '$' then "$" else if c == '&' then matched else if c == '`' then before else after
  }

  /** The replacement text `replace` inserts for the template `rep` (GetSubstitution of
      ECMAScript, section 22.1.3.19.1, for a string pattern): each `$` pattern is
      expanded. A string pattern has no capture groups, so `$1` or `$<` stay literal, as
      does any other dollar sign. */
  function Substitute(rep: string, matched: string, before: string, after: string): string
    decreases |rep|
  {
    if rep == [] then []
    else if rep[0] == '$' && |rep| >= 2 && Expands(rep[1]) then
      Expansion(rep[1], matched, before, after) + Substitute(rep[2..], matched, before, after)
    else [rep[0]] + Substitute(rep[1..], matched, before, after)
  }

  /** A template part without a dollar sign is inserted as it is, before the
      substitution of the rest. */
  lemma {:induction false} SubstituteLiteralPrefix(p: string, rest: string, matched: string, before: string, after: string)
    requires NoDollar(p)
    ensures Substitute(p + rest, matched, before, after) == p + Substitute(rest, matched, before, after)
  {
    if p != [] {
      var whole := p + rest;
      assert whole[0] == p[0] && p[0] != '$';
      assert whole[1..] == p[1..] + rest;
      assert Substitute(whole, matched, before, after) == [p[0]] + Substitute(whole[1..], matched, before, after);
      SubstituteLiteralPrefix(p[1..], rest, matched, before, after);
      assert p == [p[0]] + p[1..];
    } else {
      assert p + rest == rest;
    }
  }

  /** A template without a dollar sign is inserted as it is. */
  lemma SubstituteLiteral(rep: string, matched: string, before: string, after: string)
    requires NoDollar(rep)
    ensures Substitute(rep, matched, before, after) == rep
  {
    SubstituteLiteralPrefix(rep, [], matched, before, after);
    assert rep + [] == rep;
  }

  /** The search for the first occurrence of `pat`, from position `i` on. */
  function ReplaceFirstFrom(s: string, pat: string, rep: string, i: nat): string
    requires i <= |s|
    decreases |s| - i
  {
    if StartsWith(s[i..], pat) then s[..i] + Substitute(rep, pat, s[..i], s[i + |pat|..]) + s[i + |pat|..]
    else if i == |s| then s
    else ReplaceFirstFrom(s, pat, rep, i + 1)
  }

  /** `s.replace(pat, rep)` where `pat` is a string: the first occurrence of `pat` is
      replaced by the substitution of `rep`; without an occurrence `s` is returned
      unchanged. */
  function ReplaceFirst(s: string, pat: string, rep: string): string {
    ReplaceFirstFrom(s, pat, rep, 0)
  }

  /** The search from position `i` inside `p` passes the rest of `p` when the pattern's
      first character does not occur in `p`. */
  lemma {:induction false} ReplaceFirstFromAfter(p: string, pat: string, rep: string, q: string, i: nat)
    requires |pat| > 0 && i <= |p|
    requires forall k :: 0 <= k < |p| ==> p[k] != pat[0]
    ensures ReplaceFirstFrom(p + pat + q, pat, rep, i) == p + Substitute(rep, pat, p, q) + q
    decreases |p| - i
  {
    var s := p + pat + q;
    if i == |p| {
      assert s[i..][..|pat|] == pat;
      assert s[..i] == p;
      assert s[i + |pat|..] == q;
    } else {
      assert !StartsWith(s[i..], pat) by {
        assert s[i..][0] == p[i];
      }
      ReplaceFirstFromAfter(p, pat, rep, q, i + 1);
    }
  }

  /** When the pattern's first character does not occur in the prefix `p`, the first
      occurrence is the one right after `p`: the substituted template stands there, with
      `p` as the text before the match and `q` as the text after it. */
  lemma ReplaceFirstAfter(p: string, pat: string, rep: string, q: string)
    requires |pat| > 0
    requires forall i :: 0 <= i < |p| ==> p[i] != pat[0]
    ensures ReplaceFirst(p + pat + q, pat, rep) == p + Substitute(rep, pat, p, q) + q
    ensures NoDollar(rep) ==> ReplaceFirst(p + pat + q, pat, rep) == p + rep + q
  {
    ReplaceFirstFromAfter(p, pat, rep, q, 0);
    if NoDollar(rep) {
      SubstituteLiteral(rep, pat, p, q);
    }
  }
}
