/** Strings as the source's standard library treats them. */
module Text {
  import opened Wrappers

  // ----- numbers --------------------------------------------------------------------

  const U16: nat := 0x1_0000
  const U32: nat := 0x1_0000_0000
  const U64: nat := 0x1_0000_0000_0000_0000

  function Digit(d: nat): (c: char)
    requires d < 10
    ensures '0' <= c <= '9'
  {
    '0' + d as char
  }

  function Value(c: char): (d: nat)
    requires '0' <= c <= '9'
    ensures d < 10 && Digit(d) == c
  {
    (c - '0') as nat
  }

  /** A number written in a radix: `{}` is ten, `{:o}` is eight. */
  function Numeral(n: nat, radix: nat): (s: string)
    requires 2 <= radix <= 10
    ensures |s| > 0
    ensures forall c :: c in s ==> '0' <= c <= '9'
  {
    if n < radix then [Digit(n)] else Numeral(n / radix, radix) + [Digit(n % radix)]
  }

  function Decimal(n: nat): string {
    Numeral(n, 10)
  }

  /** The number that digits spell, at least one of them and each below the radix. */
  function Digits(s: string, radix: nat): Option<nat> {
    if s == "" || !('0' <= s[|s| - 1] <= '9') || Value(s[|s| - 1]) >= radix then None
    else if |s| == 1 then Some(Value(s[0]))
    else
      match Digits(s[..|s| - 1], radix)
      case None => None
      case Some(high) => Some(radix * high + Value(s[|s| - 1]))
  }

  /** `from_str_radix` of an unsigned type that holds the numbers below `bound`: one plus
      sign may come first. */
  function Unsigned(s: string, radix: nat, bound: nat): Option<nat> {
    match Digits(if s != "" && s[0] == '+' then s[1..] else s, radix)
    case Some(n) => if n < bound then Some(n) else None
    case None => None
  }

  lemma {:induction false} NumeralReads(n: nat, radix: nat)
    requires 2 <= radix <= 10
    ensures Digits(Numeral(n, radix), radix) == Some(n)
  {
    hide Digits;
    if n < radix {
      DigitsOne(n, radix);
    } else {
      NumeralReads(n / radix, radix);
      DigitsExtend(Numeral(n / radix, radix), n / radix, n % radix, radix);
      DivMod(n, radix);
    }
  }

  lemma DivMod(n: nat, radix: nat)
    requires radix > 0
    ensures radix * (n / radix) + n % radix == n
  {
  }

  lemma DigitsOne(d: nat, radix: nat)
    requires d < radix <= 10
    ensures Digits([Digit(d)], radix) == Some(d)
  {
  }

  lemma DigitsExtend(s: string, high: nat, low: nat, radix: nat)
    requires s != "" && Digits(s, radix) == Some(high) && low < radix <= 10
    ensures Digits(s + [Digit(low)], radix) == Some(radix * high + low)
  {
    var longer := s + [Digit(low)];
    assert longer[..|longer| - 1] == s && Value(longer[|longer| - 1]) == low;
  }

  /** Printing a number and reading it back gives the number. */
  lemma NumeralReadsBack(n: nat, radix: nat, bound: nat)
    requires 2 <= radix <= 10 && n < bound
    ensures Unsigned(Numeral(n, radix), radix, bound) == Some(n)
  {
    NumeralReads(n, radix);
    var s := Numeral(n, radix);
    assert s[0] in s;
  }

  /** `{:0width}` of a number that fits. */
  function Fixed(n: nat, width: nat): (s: string)
    ensures |s| == width
  {
    if width == 0 then "" else Fixed(n / 10, width - 1) + [Digit(n % 10)]
  }

  function Pow10(width: nat): (p: nat)
    ensures p >= 1
  {
    if width == 0 then 1 else 10 * Pow10(width - 1)
  }

  lemma {:induction false} FixedReads(n: nat, width: nat)
    requires width > 0 && n < Pow10(width)
    ensures Digits(Fixed(n, width), 10) == Some(n)
  {
    var s := Fixed(n, width);
    assert s[..|s| - 1] == Fixed(n / 10, width - 1) && s[|s| - 1] == Digit(n % 10);
    if width > 1 {
      FixedReads(n / 10, width - 1);
    } else {
      assert s == [Digit(n)];
    }
  }

  // ----- text order -----------------------------------------------------------------

  predicate Before(a: string, b: string) {
    b != "" && (a == "" || a[0] < b[0] || (a[0] == b[0] && Before(a[1..], b[1..])))
  }

  lemma {:induction false} BeforePrefix(a: string, b: string, x: string, y: string)
    requires |a| == |b|
    ensures Before(a, b) ==> Before(a + x, b + y)
    ensures a == b ==> (Before(a + x, b + y) <==> Before(x, y))
  {
    if a == "" {
      assert a + x == x && b + y == y;
    } else {
      BeforePrefix(a[1..], b[1..], x, y);
      assert (a + x)[1..] == a[1..] + x && (b + y)[1..] == b[1..] + y;
    }
  }

  lemma {:induction false} BeforeAsymmetric(a: string, b: string)
    ensures !(Before(a, b) && Before(b, a))
  {
    if a != "" && b != "" && a[0] == b[0] {
      BeforeAsymmetric(a[1..], b[1..]);
    }
  }

  /** Numbers printed to one width sort as text the way they sort as numbers. */
  lemma {:induction false} FixedSorts(n: nat, m: nat, width: nat)
    requires n < m < Pow10(width)
    ensures Before(Fixed(n, width), Fixed(m, width))
  {
    if n / 10 < m / 10 {
      FixedSorts(n / 10, m / 10, width - 1);
    }
    BeforePrefix(Fixed(n / 10, width - 1), Fixed(m / 10, width - 1), [Digit(n % 10)], [Digit(m % 10)]);
  }

  // ----- splitting and joining ------------------------------------------------------

  /** `join` of the parts. */
  function Join(parts: seq<string>, separator: string): string {
    if parts == [] then ""
    else if |parts| == 1 then parts[0]
    else parts[0] + separator + Join(parts[1..], separator)
  }

  predicate Free(text: string, c: char) {
    c !in text
  }

  /** `split(c)`: one part more than there are separators. */
  function Split(text: string, c: char): (parts: seq<string>)
    ensures |parts| >= 1
    ensures forall k :: 0 <= k < |parts| ==> Free(parts[k], c)
  {
    if text == "" then [""]
    else
      var rest := Split(text[1..], c);
      if text[0] == c then [""] + rest else [[text[0]] + rest[0]] + rest[1..]
  }

  /** `split_once(c)`: what is before the first `c` and what is after it. */
  function SplitOnce(text: string, c: char): (r: Option<(string, string)>)
    ensures r.None? <==> Free(text, c)
    ensures r.Some? ==> text == r.value.0 + [c] + r.value.1 && Free(r.value.0, c)
  {
    if text == "" then None
    else if text[0] == c then Some(("", text[1..]))
    else
      match SplitOnce(text[1..], c)
      case None => None
      case Some((before, after)) => Some(([text[0]] + before, after))
  }

  lemma {:induction false} SplitFree(text: string, c: char)
    requires Free(text, c)
    ensures Split(text, c) == [text]
  {
    if text != "" {
      SplitFree(text[1..], c);
      assert [text[0]] + text[1..] == text;
    }
  }

  lemma {:induction false} SplitAt(before: string, c: char, after: string)
    requires Free(before, c)
    ensures Split(before + [c] + after, c) == [before] + Split(after, c)
    ensures SplitOnce(before + [c] + after, c) == Some((before, after))
  {
    var text := before + [c] + after;
    if before == "" {
      assert text[1..] == after;
    } else {
      assert text[1..] == before[1..] + [c] + after;
      SplitAt(before[1..], c, after);
      assert text[0] == before[0] != c && [text[0]] + before[1..] == before;
    }
  }

  function Padded(pad: string, parts: seq<string>): seq<string> {
    if parts == [] then [] else [pad + parts[0]] + Padded(pad, parts[1..])
  }

  lemma {:induction false} PaddedNothing(parts: seq<string>)
    ensures Padded("", parts) == parts
  {
    if parts != [] {
      PaddedNothing(parts[1..]);
      assert "" + parts[0] == parts[0];
      assert [parts[0]] + parts[1..] == parts;
    }
  }

  /** Splitting undoes joining, but for what the join put after each separator. */
  lemma {:induction false} SplitJoin(parts: seq<string>, c: char, pad: string)
    requires parts != [] && Free(pad, c)
    requires forall k :: 0 <= k < |parts| ==> Free(parts[k], c)
    ensures Split(Join(parts, [c] + pad), c) == [parts[0]] + Padded(pad, parts[1..])
  {
    if |parts| == 1 {
      SplitFree(parts[0], c);
    } else {
      var rest := Join(parts[1..], [c] + pad);
      assert Join(parts, [c] + pad) == parts[0] + [c] + (pad + rest);
      SplitAt(parts[0], c, pad + rest);
      SplitJoin(parts[1..], c, pad);
      SplitPadded(pad, rest, c);
    }
  }

  /** Text without a separator in front only makes the first part longer. */
  lemma {:induction false} SplitPadded(pad: string, text: string, c: char)
    requires Free(pad, c)
    ensures Split(pad + text, c) == [pad + Split(text, c)[0]] + Split(text, c)[1..]
  {
    if pad == "" {
      assert pad + text == text && pad + Split(text, c)[0] == Split(text, c)[0];
    } else {
      assert (pad + text)[1..] == pad[1..] + text;
      SplitPadded(pad[1..], text, c);
      assert (pad + text)[0] == pad[0] != c;
      assert [pad[0]] + (pad[1..] + Split(text, c)[0]) == pad + Split(text, c)[0];
    }
  }

  lemma {:induction false} JoinKeepsFree(parts: seq<string>, separator: string, c: char)
    requires Free(separator, c) && forall k :: 0 <= k < |parts| ==> Free(parts[k], c)
    ensures Free(Join(parts, separator), c)
  {
    if |parts| > 1 {
      JoinKeepsFree(parts[1..], separator, c);
    }
  }

  // ----- white space ----------------------------------------------------------------

  /** Unicode's White_Space property. */
  predicate IsSpace(c: char) {
    '\U{0009}' <= c <= '\U{000D}' || c == ' ' || c == '\U{0085}' || c == '\U{00A0}' || c == '\U{1680}' ||
    '\U{2000}' <= c <= '\U{200A}' || c == '\U{2028}' || c == '\U{2029}' || c == '\U{202F}' || c == '\U{205F}' ||
    c == '\U{3000}'
  }

  /** The characters of the property White_Space. */
  lemma IsSpaceExactly(c: char)
    ensures IsSpace(c) <==>
              c in {'\U{9}', '\n', '\U{B}', '\U{C}', '\r', ' ', '\U{85}', '\U{A0}', '\U{1680}', '\U{2000}', '\U{2001}',
                    '\U{2002}', '\U{2003}', '\U{2004}', '\U{2005}', '\U{2006}', '\U{2007}', '\U{2008}', '\U{2009}',
                    '\U{200A}', '\U{2028}', '\U{2029}', '\U{202F}', '\U{205F}', '\U{3000}'}
  {
  }

  function TrimStart(text: string): (t: string)
    ensures t == "" || !IsSpace(t[0])
  {
    if text != "" && IsSpace(text[0]) then TrimStart(text[1..]) else text
  }

  function TrimEnd(text: string): (t: string)
    ensures t == "" || !IsSpace(t[|t| - 1])
    ensures |t| <= |text| && t == text[..|t|]
  {
    if text != "" && IsSpace(text[|text| - 1]) then TrimEnd(text[..|text| - 1]) else text
  }

  function Trim(text: string): (t: string)
    ensures Trimmed(t)
  {
    var end := TrimEnd(TrimStart(text));
    assert end != "" ==> end[0] == TrimStart(text)[0];
    end
  }

  lemma {:induction false} TrimStartKeepsFree(text: string, c: char)
    requires Free(text, c)
    ensures Free(TrimStart(text), c)
  {
    if text != "" {
      TrimStartKeepsFree(text[1..], c);
    }
  }

  lemma TrimKeepsFree(text: string, c: char)
    requires Free(text, c)
    ensures Free(Trim(text), c)
  {
    TrimStartKeepsFree(text, c);
  }

  predicate Trimmed(text: string) {
    text == "" || (!IsSpace(text[0]) && !IsSpace(text[|text| - 1]))
  }

  lemma TrimmedStays(text: string, pad: string)
    requires Trimmed(text) && forall c :: c in pad ==> IsSpace(c)
    ensures Trim(text) == text == Trim(pad + text)
  {
    TrimStartPadded(pad, text);
    assert TrimStart(text) == text && TrimEnd(text) == text;
  }

  lemma {:induction false} TrimStartPadded(pad: string, text: string)
    requires Trimmed(text) && forall c :: c in pad ==> IsSpace(c)
    ensures TrimStart(pad + text) == text
  {
    if pad != "" {
      assert (pad + text)[1..] == pad[1..] + text;
      TrimStartPadded(pad[1..], text);
    } else {
      assert pad + text == text;
    }
  }
}
