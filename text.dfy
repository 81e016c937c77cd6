/**
 * The operations on Python `str` values that the assistant relies on, over
 * `seq<char>`: one-character `split` and `replace`, the `in` substring test,
 * `lower()`, and the `int()` conversion of a decimal field.
 */
module Text {
  import opened Wrappers

  // ----- searching for one character ---------------------------------------

  /** Index of the first occurrence of `c` in `s` (Python's `s.index(c)`). */
  function IndexOf(s: string, c: char): (i: nat)
    requires c in s
    ensures i < |s| && s[i] == c && c !in s[..i]
  {
    if s[0] == c then 0
    else
      var j := IndexOf(s[1..], c);
      assert s[..j + 1] == [s[0]] + s[1..][..j];
      j + 1
  }

  /** The first occurrence is the only index with nothing equal to `c` before it. */
  lemma IndexOfUnique(s: string, c: char, i: nat)
    requires i < |s| && s[i] == c && c !in s[..i]
    ensures IndexOf(s, c) == i
  {
  }

  /** The part of `s` before the first `c`, or all of `s` when `c` does not occur. */
  function Before(s: string, c: char): (r: string)
    ensures c !in r
    ensures c !in s ==> r == s
  {
    if c in s then s[..IndexOf(s, c)] else s
  }

  // ----- split and join ----------------------------------------------------

  /**
   * Python's `s.split(sep)` with an explicit one-character separator: every
   * occurrence of `sep` cuts, and empty fields are kept.
   */
  function Split(s: string, sep: char): (parts: seq<string>)
    ensures |parts| >= 1
    ensures |parts| == 1 <==> sep !in s
    ensures forall k :: 0 <= k < |parts| ==> sep !in parts[k]
    ensures Join(parts, sep) == s
    decreases |s|
  {
    if sep !in s then [s]
    else
      var i := IndexOf(s, sep);
      var rest := Split(s[i + 1..], sep);
      assert s == s[..i] + [sep] + s[i + 1..];
      [s[..i]] + rest
  }

  /** Python's `sep.join(parts)`. */
  function Join(parts: seq<string>, sep: char): string
    requires |parts| >= 1
  {
    if |parts| == 1 then parts[0] else parts[0] + [sep] + Join(parts[1..], sep)
  }

  /** Splitting what was joined gives back the fields, when no field holds the separator. */
  lemma {:induction false} SplitJoin(parts: seq<string>, sep: char)
    requires |parts| >= 1
    requires forall k :: 0 <= k < |parts| ==> sep !in parts[k]
    ensures Split(Join(parts, sep), sep) == parts
  {
    if |parts| > 1 {
      var s := Join(parts, sep);
      var n := |parts[0]|;
      assert s[..n] == parts[0];
      assert s[n] == sep;
      IndexOfUnique(s, sep, n);
      assert s[n + 1..] == Join(parts[1..], sep);
      SplitJoin(parts[1..], sep);
    }
  }

  /** The first two fields of a split, by the first and second occurrence of the separator. */
  lemma SplitFields(s: string, sep: char)
    requires sep in s
    ensures Split(s, sep)[0] == s[..IndexOf(s, sep)]
    ensures Split(s, sep)[1] == Before(s[IndexOf(s, sep) + 1..], sep)
  {
  }

  // ----- removing one character --------------------------------------------

  /** Python's `s.replace(c, "")` for a one-character pattern. */
  function Erase(s: string, c: char): (r: string)
    ensures c !in r
    ensures c !in s ==> r == s
    ensures |r| <= |s| && forall k :: 0 <= k < |r| ==> r[k] in s
  {
    if s == [] then [] else (if s[0] == c then [] else [s[0]]) + Erase(s[1..], c)
  }

  /** One step of `Erase`: the first character is dropped when it is `c` and kept otherwise. */
  lemma EraseCons(x: char, s: string, c: char)
    ensures Erase([x] + s, c) == (if x == c then [] else [x]) + Erase(s, c)
  {
    assert ([x] + s)[1..] == s;
  }

  /** Erasing distributes over concatenation, which with the clauses above determines it. */
  lemma {:induction false} EraseConcat(a: string, b: string, c: char)
    ensures Erase(a + b, c) == Erase(a, c) + Erase(b, c)
  {
    if a != [] {
      var head := if a[0] == c then [] else [a[0]];
      assert a == [a[0]] + a[1..];
      assert a + b == [a[0]] + (a[1..] + b);
      EraseCons(a[0], a[1..] + b, c);
      EraseCons(a[0], a[1..], c);
      EraseConcat(a[1..], b, c);
      assert head + (Erase(a[1..], c) + Erase(b, c)) == (head + Erase(a[1..], c)) + Erase(b, c);
    } else {
      assert a + b == b;
    }
  }

  // ----- substring test ----------------------------------------------------

  /** `needle` occurs in `hay` starting at index `i`. */
  ghost predicate OccursAt(hay: string, needle: string, i: int) {
    0 <= i && i + |needle| <= |hay| && hay[i..i + |needle|] == needle
  }

  /** Python's `needle in hay` on strings. */
  function Contains(hay: string, needle: string): (r: bool)
    ensures r <==> exists i :: OccursAt(hay, needle, i)
    decreases |hay|
  {
    if |needle| > |hay| then false
    else if hay[..|needle|] == needle then
      assert OccursAt(hay, needle, 0);
      true
    else
      var r := Contains(hay[1..], needle);
      assert forall i :: OccursAt(hay[1..], needle, i) ==> OccursAt(hay, needle, i + 1);
      assert forall i :: OccursAt(hay, needle, i) && i > 0 ==> OccursAt(hay[1..], needle, i - 1);
      r
  }

  /** A witness index shows that `needle in hay` holds. */
  lemma ContainsAt(hay: string, needle: string, i: nat)
    requires i + |needle| <= |hay| && hay[i..i + |needle|] == needle
    ensures Contains(hay, needle)
  {
    assert OccursAt(hay, needle, i);
  }

  /** Python's `any(w in s for w in words)`. */
  function ContainsAny(s: string, words: seq<string>): (r: bool)
    ensures r <==> exists k :: 0 <= k < |words| && Contains(s, words[k])
  {
    if words == [] then false
    else
      var r := Contains(s, words[0]) || ContainsAny(s, words[1..]);
      assert forall k :: 1 <= k < |words| ==> words[k] == words[1..][k - 1];
      r
  }

  // ----- lower case --------------------------------------------------------

  /**
   * One character of Python's `str.lower()`, for the ASCII letters and the
   * Latin-1 capitals U+00C0..U+00DE (all but the multiplication sign U+00D7).
   */
  function LowerChar(c: char): char
  {
    if 'A' <= c <= 'Z' || ('\U{C0}' <= c <= '\U{DE}' && c != '\U{D7}') then (c as int + 32) as char
    else c
  }

  /** No character of `s` is changed by lower-casing. */
  ghost predicate IsLower(s: string) {
    forall k :: 0 <= k < |s| ==> LowerChar(s[k]) == s[k]
  }

  /** Python's `s.lower()`, character by character. */
  function Lower(s: string): (r: string)
    ensures |r| == |s|
    ensures forall k :: 0 <= k < |s| ==> r[k] == LowerChar(s[k])
    ensures IsLower(r)
    ensures IsLower(s) ==> r == s
  {
    if s == [] then [] else [LowerChar(s[0])] + Lower(s[1..])
  }

  // ----- Python's int() on a decimal field ---------------------------------

  /**
   * The characters `int()` skips around a number: the ASCII white space of
   * CPython's `Py_ISSPACE` (space and `\t` to `\r`), and the non-ASCII
   * characters for which `str.isspace()` holds, which `int()` first turns into
   * spaces. The ASCII separators U+001C to U+001F are `isspace()` but are not
   * skipped: `int()` raises on them.
   */
  predicate IntSpace(c: char) {
    c == ' ' || ('\t' <= c <= '\r') || c == '\U{85}' || c == '\U{A0}'
    || c == '\U{1680}' || ('\U{2000}' <= c <= '\U{200A}') || c == '\U{2028}' || c == '\U{2029}'
    || c == '\U{202F}' || c == '\U{205F}' || c == '\U{3000}'
  }

  function TrimStart(s: string): (r: string)
    ensures |r| <= |s| && r == s[|s| - |r|..]
    ensures |r| == 0 || !IntSpace(r[0])
  {
    if |s| > 0 && IntSpace(s[0]) then TrimStart(s[1..]) else s
  }

  function TrimEnd(s: string): (r: string)
    ensures |r| <= |s| && r == s[..|r|]
    ensures |r| == 0 || !IntSpace(r[|r| - 1])
  {
    if |s| > 0 && IntSpace(s[|s| - 1]) then TrimEnd(s[..|s| - 1]) else s
  }

  /** The trimming `int()` does: no white space is left at either end, and none is removed from inside. */
  function Strip(s: string): (r: string)
    ensures |r| == 0 || (!IntSpace(r[0]) && !IntSpace(r[|r| - 1]))
    ensures (|s| == 0 || (!IntSpace(s[0]) && !IntSpace(s[|s| - 1]))) ==> r == s
  {
    TrimEnd(TrimStart(s))
  }

  predicate IsDigit(c: char) {
    '0' <= c <= '9'
  }

  /** ASCII digits with single underscores between them, as `int()` accepts. */
  predicate IsDigitGroups(s: string) {
    |s| > 0 &&
    forall k :: 0 <= k < |s| ==> IsDigit(s[k]) || (s[k] == '_' && 0 < k < |s| - 1 && IsDigit(s[k + 1]))
  }

  function DigitValue(c: char): nat {
    if IsDigit(c) then c as int - '0' as int else 0
  }

  /** The decimal value of the digits of `s`, underscores skipped. */
  function Magnitude(s: string): nat {
    if s == [] then 0
    else if s[|s| - 1] == '_' then Magnitude(s[..|s| - 1])
    else Magnitude(s[..|s| - 1]) * 10 + DigitValue(s[|s| - 1])
  }

  /**
   * Python's `int(field)` on a `str` in base 10: white space around the number
   * is stripped, one `+` or `-` may lead; `None` where Python raises ValueError.
   */
  function ParseInt(field: string): Option<int>
  {
    var t := Strip(field);
    if |t| > 0 && (t[0] == '+' || t[0] == '-') then
      if IsDigitGroups(t[1..]) then Some(if t[0] == '-' then -(Magnitude(t[1..]) as int) else Magnitude(t[1..]))
      else None
    else if IsDigitGroups(t) then Some(Magnitude(t))
    else None
  }

  function DigitChar(d: nat): char
    requires d < 10
  {
    ('0' as int + d) as char
  }

  /** The decimal numeral of `n`, most significant digit first. */
  function Digits(n: nat): (s: string)
    ensures |s| > 0 && AllDigits(s)
  {
    if n < 10 then [DigitChar(n)] else Digits(n / 10) + [DigitChar(n % 10)]
  }

  /** Python's `str(n)` for an integer. */
  function Decimal(n: int): string {
    if n < 0 then "-" + Digits(-n) else Digits(n)
  }

  lemma {:induction false} MagnitudeDigits(n: nat)
    ensures Magnitude(Digits(n)) == n
  {
    if n >= 10 {
      var s := Digits(n);
      assert s[..|s| - 1] == Digits(n / 10);
      MagnitudeDigits(n / 10);
    }
  }

  predicate AllDigits(s: string) {
    forall k :: 0 <= k < |s| ==> IsDigit(s[k])
  }

  lemma DigitsAreGroups(ds: string)
    requires |ds| > 0 && AllDigits(ds)
    ensures IsDigitGroups(ds)
  {
  }

  lemma DigitsStripped(s: string)
    requires |s| > 0 && !IntSpace(s[0]) && IsDigit(s[|s| - 1])
    ensures Strip(s) == s
  {
  }

  /** A plain run of ASCII digits is read as its decimal value. */
  lemma ParseIntDigits(ds: string)
    requires |ds| > 0 && AllDigits(ds)
    ensures ParseInt(ds) == Some(Magnitude(ds))
  {
    DigitsAreGroups(ds);
    assert IsDigit(ds[0]) && IsDigit(ds[|ds| - 1]);
    DigitsStripped(ds);
  }

  /** A minus sign before a run of ASCII digits negates its value. */
  lemma ParseIntNegated(s: string)
    requires |s| > 1 && s[0] == '-' && AllDigits(s[1..])
    ensures ParseInt(s) == Some(-(Magnitude(s[1..]) as int))
  {
    DigitsAreGroups(s[1..]);
    assert IsDigit(s[1..][|s| - 2]);
    DigitsStripped(s);
  }

  /** The numeral of a negative number is a minus sign before the digits of its magnitude. */
  lemma DecimalNegative(n: int)
    requires n < 0
    ensures |Decimal(n)| > 1 && Decimal(n)[0] == '-' && Decimal(n)[1..] == Digits(-n)
    ensures AllDigits(Decimal(n)[1..]) && Magnitude(Decimal(n)[1..]) == -n
  {
    MagnitudeDigits(-n);
  }

  lemma ParseIntNegativeDecimal(n: int)
    requires n < 0
    ensures ParseInt(Decimal(n)) == Some(n)
  {
    DecimalNegative(n);
    MagnitudeDigits(-n);
    ParseIntNegated(Decimal(n));
  }

  lemma ParseIntNaturalDecimal(n: nat)
    ensures ParseInt(Decimal(n)) == Some(n)
  {
    MagnitudeDigits(n);
    ParseIntDigits(Digits(n));
  }

  /** `int(str(n)) == n`: the parser reads back every numeral Python prints. */
  lemma ParseIntDecimal(n: int)
    ensures ParseInt(Decimal(n)) == Some(n)
  {
    if n < 0 {
      ParseIntNegativeDecimal(n);
    } else {
      ParseIntNaturalDecimal(n);
    }
  }

  /** An information separator such as U+001C is not skipped: `int()` rejects "\x1c1". */
  lemma ParseIntRejectsSeparator(field: string)
    requires field == "\U{1C}1"
    ensures ParseInt(field).None?
  {
    assert !IntSpace(field[0]) && IsDigit(field[1]);
    assert Strip(field) == field;
    assert !IsDigitGroups(field);
  }
}
