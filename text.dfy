/**
 * The few `str` operations the pipeline uses, over ASCII: digit recognition and
 * `int`/`str` conversion, `lower`, `replace`, and `split(maxsplit=1)[0]`.
 */
module Text {
  import opened Wrappers

  predicate IsDigit(c: char) { '0' <= c <= '9' }

  predicate AllDigits(s: string) { forall i :: 0 <= i < |s| ==> IsDigit(s[i]) }

  /** `re.match(r'^\d+$', s)`: one or more (ASCII) decimal digits and nothing else. */
  predicate IsDigits(s: string) { |s| > 0 && AllDigits(s) }

  /** The position of the first `.` in `s`, if any. */
  function DotIndex(s: string): (r: Option<nat>)
    ensures r.Some? ==> r.value < |s| && s[r.value] == '.'
    ensures r.Some? ==> forall j :: 0 <= j < r.value ==> s[j] != '.'
    ensures r.None? ==> forall j :: 0 <= j < |s| ==> s[j] != '.'
  {
    if s == [] then None
    else if s[0] == '.' then Some(0)
    else match DotIndex(s[1..]) {
      case None => None
      case Some(i) => Some(i + 1)
    }
  }

  /** `re.match(r'^\d+\.\d+$', s)`: digits, one dot, digits. */
  predicate IsDecimal(s: string) {
    match DotIndex(s)
    case None => false
    case Some(i) => IsDigits(s[..i]) && IsDigits(s[i + 1..])
  }

  function DigitValue(c: char): nat
    requires IsDigit(c)
  {
    c as int - '0' as int
  }

  function DigitChar(d: nat): (c: char)
    requires d < 10
    ensures IsDigit(c) && DigitValue(c) == d
  {
    ('0' as int + d) as char
  }

  /** `int(s)` for a string of decimal digits (the empty string reads as 0). */
  function ValueOf(s: string): nat
    requires AllDigits(s)
  {
    if s == [] then 0 else 10 * ValueOf(s[..|s| - 1]) + DigitValue(s[|s| - 1])
  }

  /** `str(n)` for a non-negative integer: its decimal spelling without leading zeros. */
  function Spell(n: nat): (s: string)
    ensures IsDigits(s)
    ensures n > 0 ==> s[0] != '0'
    decreases n
  {
    if n < 10 then [DigitChar(n)] else Spell(n / 10) + [DigitChar(n % 10)]
  }

  /** Reading back the spelling of a number gives the number. */
  lemma {:induction false} ValueOfSpell(n: nat)
    ensures ValueOf(Spell(n)) == n
  {
    if n >= 10 {
      var s := Spell(n);
      assert s[..|s| - 1] == Spell(n / 10);
      ValueOfSpell(n / 10);
    }
  }

  function LowerChar(c: char): char {
    if 'A' <= c <= 'Z' then (c as int + 32) as char else c
  }

  predicate IsLower(s: string) { forall i :: 0 <= i < |s| ==> !('A' <= s[i] <= 'Z') }

  /** `s.lower()` on ASCII letters. */
  function Lower(s: string): (r: string)
    ensures |r| == |s|
    ensures forall i :: 0 <= i < |s| ==> r[i] == LowerChar(s[i])
  {
    seq(|s|, i requires 0 <= i < |s| => LowerChar(s[i]))
  }

  /** Lower-casing leaves no upper-case letter, and so is idempotent. */
  lemma LowerIsLower(s: string)
    ensures IsLower(Lower(s))
    ensures Lower(Lower(s)) == Lower(s)
  {
  }

  /** `s.replace('_', '-')`. */
  function Hyphenate(s: string): (r: string)
    ensures |r| == |s|
    ensures forall i :: 0 <= i < |s| ==> r[i] == (if s[i] == '_' then '-' else s[i])
  {
    if s == [] then [] else [if s[0] == '_' then '-' else s[0]] + Hyphenate(s[1..])
  }

  /**
   * `s.replace(pat, '')`: one left-to-right pass deleting non-overlapping
   * occurrences; text that only becomes an occurrence after a deletion stays.
   */
  function RemoveAll(s: string, pat: string): (r: string)
    requires |pat| > 0
    ensures |r| <= |s|
    decreases |s|
  {
    if |s| < |pat| then s
    else if s[..|pat|] == pat then RemoveAll(s[|pat|..], pat)
    else [s[0]] + RemoveAll(s[1..], pat)
  }

  /** An occurrence at the front is deleted, and the rest is processed as if it stood alone. */
  lemma RemoveAllPrefix(s: string, pat: string)
    requires |pat| > 0
    ensures RemoveAll(pat + s, pat) == RemoveAll(s, pat)
  {
    assert (pat + s)[..|pat|] == pat;
    assert (pat + s)[|pat|..] == s;
  }

  /** `pat` occurs in `s` starting at position `i`. */
  predicate OccursAt(s: string, pat: string, i: int) {
    0 <= i <= |s| - |pat| && s[i..i + |pat|] == pat
  }

  /** Dropping the first character moves every occurrence one place to the left. */
  lemma OccursShift(s: string, pat: string)
    requires s != []
    ensures forall i :: 0 <= i ==> (OccursAt(s[1..], pat, i) <==> OccursAt(s, pat, i + 1))
  {
    forall i | 0 <= i
      ensures OccursAt(s[1..], pat, i) <==> OccursAt(s, pat, i + 1)
    {
      if 0 <= i <= |s| - 1 - |pat| {
        assert s[1..][i..i + |pat|] == s[i + 1..i + 1 + |pat|];
      }
    }
  }

  /** A pattern whose first character never stands at a possible start does not occur. */
  lemma FirstCharAbsent(s: string, pat: string)
    requires |pat| > 0
    requires forall i :: 0 <= i <= |s| - |pat| ==> s[i] != pat[0]
    ensures forall i :: !OccursAt(s, pat, i)
  {
    forall i
      ensures !OccursAt(s, pat, i)
    {
      if 0 <= i <= |s| - |pat| {
        assert s[i..i + |pat|][0] == s[i];
      }
    }
  }

  /** Where the pattern does not occur, nothing is removed. */
  lemma {:induction false} RemoveAllAbsent(s: string, pat: string)
    requires |pat| > 0
    requires forall i :: !OccursAt(s, pat, i)
    ensures RemoveAll(s, pat) == s
  {
    if |s| >= |pat| {
      assert !OccursAt(s, pat, 0);
      OccursShift(s, pat);
      RemoveAllAbsent(s[1..], pat);
      assert [s[0]] + s[1..] == s;
    }
  }

  /** Text in front of the first occurrence is kept as it is. */
  lemma {:induction false} RemoveAllKeeps(a: string, b: string, pat: string)
    requires |pat| > 0
    requires forall i :: 0 <= i < |a| ==> !OccursAt(a + b, pat, i)
    ensures RemoveAll(a + b, pat) == a + RemoveAll(b, pat)
  {
    if a != [] {
      var s := a + b;
      if |s| < |pat| {
        assert RemoveAll(b, pat) == b;
      } else {
        assert !OccursAt(s, pat, 0) && s[0..|pat|] == s[..|pat|];
        assert RemoveAll(s, pat) == [s[0]] + RemoveAll(s[1..], pat);
        OccursShift(s, pat);
        assert s[1..] == a[1..] + b;
        RemoveAllKeeps(a[1..], b, pat);
        assert s[0] == a[0] && [a[0]] + a[1..] == a;
      }
    } else {
      assert a + b == b;
    }
  }

  /** The characters `str.split()` treats as whitespace, within ASCII. */
  predicate IsSpace(c: char) { c == ' ' || 9 <= c as int <= 13 || 28 <= c as int <= 31 }

  function TrimLeft(s: string): (r: string)
    ensures |r| <= |s|
    ensures r == [] || !IsSpace(r[0])
  {
    if s != [] && IsSpace(s[0]) then TrimLeft(s[1..]) else s
  }

  /** The characters before the first whitespace. */
  function Word(s: string): (r: string)
    ensures r <= s
  {
    if s == [] || IsSpace(s[0]) then [] else [s[0]] + Word(s[1..])
  }

  /** `s.split(maxsplit=1)[0]`; None where Python raises IndexError (no field at all). */
  function FirstField(s: string): Option<string> {
    var t := TrimLeft(s);
    if t == [] then None else Some(Word(t))
  }

  /** A field followed by a space is read back whole by `split(maxsplit=1)[0]`. */
  lemma {:induction false} FirstFieldOf(w: string, rest: string)
    requires |w| > 0 && forall i :: 0 <= i < |w| ==> !IsSpace(w[i])
    ensures FirstField(w + " " + rest) == Some(w)
  {
    assert TrimLeft(w + " " + rest) == w + " " + rest;
    WordOf(w, rest);
  }

  lemma {:induction false} WordOf(w: string, rest: string)
    requires forall i :: 0 <= i < |w| ==> !IsSpace(w[i])
    ensures Word(w + " " + rest) == w
  {
    if w == [] {
      assert (w + " " + rest)[0] == ' ';
    } else {
      assert (w + " " + rest)[1..] == w[1..] + " " + rest;
      WordOf(w[1..], rest);
    }
  }
}
