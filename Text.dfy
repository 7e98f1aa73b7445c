/**
 * The two Foundation string services ToneHone relies on:
 *   - `trimmingCharacters(in: .whitespacesAndNewlines)`, used before a message
 *     is appended;
 *   - string interpolation of an `Int` (`"\(n)"`), used by the tone hint and by
 *     the tone description.
 * Both are given here with the properties the rest of the model needs: a
 * trimmed string is the original minus whitespace at both ends, and the
 * decimal rendering of an integer can be parsed back, so it never loses the
 * value and never runs into the text that follows it.
 */
module Text {
  import opened Wrappers

  /**
   * `CharacterSet.whitespacesAndNewlines`: general category Zs, the tab,
   * U+000A to U+000D, U+0085 and the line and paragraph separators.
   */
  predicate IsWhitespace(c: char) {
    || ('\t' <= c <= '\r')
    || c == ' '
    || c == '\U{85}'
    || c == '\U{A0}'
    || c == '\U{1680}'
    || ('\U{2000}' <= c <= '\U{200A}')
    || c == '\U{2028}'
    || c == '\U{2029}'
    || c == '\U{202F}'
    || c == '\U{205F}'
    || c == '\U{3000}'
  }

  predicate AllWhitespace(s: string) {
    forall i :: 0 <= i < |s| ==> IsWhitespace(s[i])
  }

  /** Length of the longest all-whitespace prefix of `s`. */
  function LeadingWhitespace(s: string): (n: nat)
    ensures n <= |s|
    ensures AllWhitespace(s[..n])
    ensures n < |s| ==> !IsWhitespace(s[n])
  {
    if s == [] || !IsWhitespace(s[0]) then 0
    else
      var rest := LeadingWhitespace(s[1..]);
      assert s[1..][..rest] == s[1..rest + 1];
      1 + rest
  }

  /** Length of the longest all-whitespace suffix of `s`. */
  function TrailingWhitespace(s: string): (n: nat)
    ensures n <= |s|
    ensures AllWhitespace(s[|s| - n..])
    ensures n < |s| ==> !IsWhitespace(s[|s| - 1 - n])
  {
    if s == [] || !IsWhitespace(s[|s| - 1]) then 0
    else
      var init := s[..|s| - 1];
      var rest := TrailingWhitespace(init);
      assert s[|s| - (rest + 1)..] == init[|init| - rest..] + [s[|s| - 1]];
      1 + rest
  }

  /**
   * `s.trimmingCharacters(in: .whitespacesAndNewlines)`: the slice of `s`
   * between its leading and its trailing whitespace.
   */
  function Trim(s: string): (r: string)
    ensures r == [] <==> AllWhitespace(s)
    ensures r != [] ==> !IsWhitespace(r[0]) && !IsWhitespace(r[|r| - 1])
    ensures var lead := LeadingWhitespace(s);
      && lead + |r| <= |s|
      && r == s[lead..lead + |r|]
      && AllWhitespace(s[..lead])
      && AllWhitespace(s[lead + |r|..])
  {
    var lead := LeadingWhitespace(s);
    if lead == |s| then
      assert s[..lead] == s;
      []
    else
      var trail := TrailingWhitespace(s);
      assert !IsWhitespace(s[lead]);
      assert lead < |s| - trail;
      var r := s[lead..|s| - trail];
      assert !AllWhitespace(s) by { assert !IsWhitespace(s[lead]); }
      assert r[|r| - 1] == s[|s| - 1 - trail];
      r
  }

  /** Trimming twice is trimming once. */
  lemma TrimIdempotent(s: string)
    ensures Trim(Trim(s)) == Trim(s)
  {
    var r := Trim(s);
    if r != [] {
      assert LeadingWhitespace(r) == 0;
      assert r[0..|Trim(r)|] == Trim(r);
      assert TrailingWhitespace(r) == 0;
    }
  }

  // ----- decimal rendering of integers -----

  predicate IsDigit(c: char) {
    '0' <= c <= '9'
  }

  /** A character that can occur in the rendering of an `Int`. */
  predicate IsNumeral(c: char) {
    IsDigit(c) || c == '-'
  }

  predicate AllDigits(s: string) {
    forall i :: 0 <= i < |s| ==> IsDigit(s[i])
  }

  function DigitChar(d: nat): (c: char)
    requires d < 10
    ensures IsDigit(c)
  {
    (d + '0' as int) as char
  }

  /** Decimal digits of `n`, most significant first, with no leading zero. */
  function NatToString(n: nat): (r: string)
    ensures |r| >= 1 && AllDigits(r)
    ensures |r| > 1 ==> r[0] != '0'
    decreases n
  {
    if n < 10 then [DigitChar(n)]
    else NatToString(n / 10) + [DigitChar(n % 10)]
  }

  /** `"\(n)"` for an `Int`: a minus sign before the digits of a negative value. */
  function IntToString(n: int): (r: string)
    ensures |r| >= 1
    ensures forall i :: 0 <= i < |r| ==> IsNumeral(r[i])
  {
    if n < 0 then "-" + NatToString(-n) else NatToString(n)
  }

  /** Value of a string of decimal digits. */
  function DigitsValue(s: string): nat
    requires AllDigits(s)
  {
    if s == [] then 0
    else DigitsValue(s[..|s| - 1]) * 10 + (s[|s| - 1] as int - '0' as int)
  }

  /** The inverse of IntToString: an optional minus sign, then decimal digits. */
  function ParseInt(s: string): Option<int> {
    if |s| >= 2 && s[0] == '-' && AllDigits(s[1..]) then Some(0 - DigitsValue(s[1..]))
    else if |s| >= 1 && AllDigits(s) then Some(DigitsValue(s))
    else None
  }

  lemma {:induction false} NatToStringRoundTrip(n: nat)
    ensures DigitsValue(NatToString(n)) == n
    decreases n
  {
    if n >= 10 {
      NatToStringRoundTrip(n / 10);
      var s := NatToString(n);
      assert s[..|s| - 1] == NatToString(n / 10);
    }
  }

  /** Rendering an integer and parsing it back yields the integer. */
  lemma IntToStringRoundTrip(n: int)
    ensures ParseInt(IntToString(n)) == Some(n)
  {
    if n < 0 {
      NatToStringRoundTrip(-n);
      assert IntToString(n)[1..] == NatToString(-n);
    } else {
      NatToStringRoundTrip(n);
    }
  }

  lemma IntToStringInjective(a: int, b: int)
    requires IntToString(a) == IntToString(b)
    ensures a == b
  {
    IntToStringRoundTrip(a);
    IntToStringRoundTrip(b);
  }

  /** Text that cannot continue a number: empty, or starting with a non-numeral. */
  predicate StopsNumber(s: string) {
    s == [] || !IsNumeral(s[0])
  }

  lemma CharAfterShorterPrefix(a: string, x: string, b: string, y: string)
    requires a + x == b + y && |a| < |b|
    ensures x != [] && x[0] == b[|a|]
  {
    assert (a + x)[|a|] == (b + y)[|a|];
  }

  /**
   * A rendered integer followed by text that stops it splits in exactly one
   * way: the reader knows where the number ends.
   */
  lemma SplitAfterNumber(a: int, x: string, b: int, y: string)
    requires StopsNumber(x) && StopsNumber(y)
    requires IntToString(a) + x == IntToString(b) + y
    ensures a == b && x == y
  {
    var sa, sb := IntToString(a), IntToString(b);
    if |sa| < |sb| {
      CharAfterShorterPrefix(sa, x, sb, y);
      assert false;
    } else if |sb| < |sa| {
      CharAfterShorterPrefix(sb, y, sa, x);
      assert false;
    }
    assert sa == (sa + x)[..|sa|];
    assert sb == (sb + y)[..|sb|];
    IntToStringInjective(a, b);
    assert x == (sa + x)[|sa|..];
    assert y == (sb + y)[|sb|..];
  }

  // ----- labelled integer fields, as in "P7/F3/Fw6" -----

  /** Each label followed by the rendering of the matching value. */
  function Fields(labels: seq<string>, values: seq<int>): string
    requires |labels| == |values|
  {
    if labels == [] then ""
    else labels[0] + IntToString(values[0]) + Fields(labels[1..], values[1..])
  }

  /** Every label after the first opens with a character no number contains. */
  predicate Separating(labels: seq<string>) {
    forall k :: 1 <= k < |labels| ==> labels[k] != [] && !IsNumeral(labels[k][0])
  }

  lemma FieldsUnfold(labels: seq<string>, values: seq<int>, t: string)
    requires |labels| == |values| && labels != []
    ensures Fields(labels, values) + t
         == labels[0] + (IntToString(values[0]) + (Fields(labels[1..], values[1..]) + t))
  {
  }

  /** Five labelled fields, written out. */
  lemma Fields5(l0: string, l1: string, l2: string, l3: string, l4: string, v0: int, v1: int, v2: int, v3: int, v4: int)
    ensures Fields([l0, l1, l2, l3, l4], [v0, v1, v2, v3, v4])
         == l0 + IntToString(v0) + (l1 + IntToString(v1) + (l2 + IntToString(v2)
            + (l3 + IntToString(v3) + (l4 + IntToString(v4)))))
  {
    var f4 := Fields([l4], [v4]);
    assert f4 == l4 + IntToString(v4) by {
      var noLabels: seq<string>, noValues: seq<int> := [], [];
      assert [l4][1..] == noLabels && [v4][1..] == noValues;
      assert f4 == l4 + IntToString(v4) + Fields(noLabels, noValues);
      assert Fields(noLabels, noValues) == [];
    }
    var f3 := Fields([l3, l4], [v3, v4]);
    assert f3 == l3 + IntToString(v3) + f4 by {
      assert [l3, l4][1..] == [l4] && [v3, v4][1..] == [v4];
    }
    var f2 := Fields([l2, l3, l4], [v2, v3, v4]);
    assert f2 == l2 + IntToString(v2) + f3 by {
      assert [l2, l3, l4][1..] == [l3, l4] && [v2, v3, v4][1..] == [v3, v4];
    }
    var f1 := Fields([l1, l2, l3, l4], [v1, v2, v3, v4]);
    assert f1 == l1 + IntToString(v1) + f2 by {
      assert [l1, l2, l3, l4][1..] == [l2, l3, l4] && [v1, v2, v3, v4][1..] == [v2, v3, v4];
    }
    assert Fields([l0, l1, l2, l3, l4], [v0, v1, v2, v3, v4]) == l0 + IntToString(v0) + f1 by {
      assert [l0, l1, l2, l3, l4][1..] == [l1, l2, l3, l4] && [v0, v1, v2, v3, v4][1..] == [v1, v2, v3, v4];
    }
  }

  lemma Associate(a: string, b: string, c: string)
    ensures a + b + c == a + (b + c)
  {
  }

  lemma CancelPrefix(l: string, x: string, y: string)
    requires l + x == l + y
    ensures x == y
  {
    assert x == (l + x)[|l|..];
    assert y == (l + y)[|l|..];
  }

  lemma CancelSuffix(x: string, y: string, t: string)
    requires x + t == y + t
    ensures x == y
  {
    assert x == (x + t)[..|x|];
    assert y == (y + t)[..|y|];
  }

  /** What follows the first value of separated fields stops that number. */
  lemma FieldsRestStops(labels: seq<string>, values: seq<int>, t: string)
    requires |labels| == |values| && labels != [] && Separating(labels) && StopsNumber(t)
    ensures StopsNumber(Fields(labels[1..], values[1..]) + t)
  {
    if |labels| > 1 {
      assert labels[1..][0] == labels[1];
    }
  }

  /**
   * Labelled fields can be read back: equal renderings (each followed by text
   * that stops a number) come from equal values.
   */
  lemma {:induction false} FieldsInjective(labels: seq<string>, a: seq<int>, b: seq<int>, ta: string, tb: string)
    requires |labels| == |a| == |b| && Separating(labels)
    requires StopsNumber(ta) && StopsNumber(tb)
    requires Fields(labels, a) + ta == Fields(labels, b) + tb
    ensures a == b && ta == tb
    decreases |labels|
  {
    if labels != [] {
      var ra := Fields(labels[1..], a[1..]) + ta;
      var rb := Fields(labels[1..], b[1..]) + tb;
      FieldsUnfold(labels, a, ta);
      FieldsUnfold(labels, b, tb);
      CancelPrefix(labels[0], IntToString(a[0]) + ra, IntToString(b[0]) + rb);
      FieldsRestStops(labels, a, ta);
      FieldsRestStops(labels, b, tb);
      SplitAfterNumber(a[0], ra, b[0], rb);
      assert Separating(labels[1..]);
      FieldsInjective(labels[1..], a[1..], b[1..], ta, tb);
      assert a == [a[0]] + a[1..];
      assert b == [b[0]] + b[1..];
    } else {
      assert Fields(labels, a) + ta == ta && Fields(labels, b) + tb == tb;
    }
  }
}
