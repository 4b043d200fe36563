/** The two JavaScript string primitives the reminder code relies on:
    `String.prototype.split` with a one-character separator, and the global
    `parseInt` called without a radix (ECMAScript's definition: skip leading
    white space, read an optional sign, treat a `0x` prefix as base 16, read
    the longest run of digits, and answer NaN when there is none). */
module JsText {

  /** A JavaScript number as `parseInt` can produce it: NaN or an integer. */
  datatype ParsedInt = NaN | Num(value: int)

  // ---------------------------------------------------------------- split

  function Split(s: string, sep: char): (parts: seq<string>)
    ensures |parts| >= 1
    ensures forall k :: 0 <= k < |parts| ==> sep !in parts[k]
  {
    if s == [] then [[]]
    else
      var rest := Split(s[1..], sep);
      if s[0] == sep then [[]] + rest
      else [[s[0]] + rest[0]] + rest[1..]
  }

  /** The inverse of `Split`: the parts glued back with the separator. */
  function Join(parts: seq<string>, sep: char): string
    requires |parts| >= 1
  {
    if |parts| == 1 then parts[0] else parts[0] + [sep] + Join(parts[1..], sep)
  }

  /** Splitting loses nothing: joining the parts gives the string back. */
  lemma {:induction false} JoinSplit(s: string, sep: char)
    ensures Join(Split(s, sep), sep) == s
  {
    if s != [] {
      var rest := Split(s[1..], sep);
      JoinSplit(s[1..], sep);
      if s[0] == sep {
        assert ([[]] + rest)[1..] == rest;
      } else {
        var parts := [[s[0]] + rest[0]] + rest[1..];
        assert parts[1..] == rest[1..];
        if |rest| > 1 {
          assert Join(rest, sep) == rest[0] + [sep] + Join(rest[1..], sep);
        }
      }
    }
  }

  /** A piece free of the separator stays glued to whatever follows it. */
  lemma {:induction false} SplitPiece(a: string, t: string, sep: char)
    requires sep !in a
    ensures Split(a + t, sep) == [a + Split(t, sep)[0]] + Split(t, sep)[1..]
  {
    if a == [] {
      assert a + t == t;
      var st := Split(t, sep);
      assert a + st[0] == st[0];
      assert st == [st[0]] + st[1..];
    } else {
      assert (a + t)[0] == a[0];
      assert (a + t)[1..] == a[1..] + t;
      SplitPiece(a[1..], t, sep);
      assert [a[0]] + (a[1..] + Split(t, sep)[0]) == a + Split(t, sep)[0];
    }
  }

  /** Joining separator-free parts and splitting again gives the parts back. */
  lemma {:induction false} SplitJoin(parts: seq<string>, sep: char)
    requires |parts| >= 1
    requires forall k :: 0 <= k < |parts| ==> sep !in parts[k]
    ensures Split(Join(parts, sep), sep) == parts
  {
    if |parts| == 1 {
      SplitPiece(parts[0], [], sep);
      assert parts[0] + [] == parts[0];
    } else {
      var tail := Join(parts[1..], sep);
      SplitJoin(parts[1..], sep);
      assert Join(parts, sep) == parts[0] + ([sep] + tail);
      SplitPiece(parts[0], [sep] + tail, sep);
      assert ([sep] + tail)[1..] == tail;
      assert parts[0] + [] == parts[0];
      assert parts == [parts[0]] + parts[1..];
    }
  }

  // ------------------------------------------------------------- parseInt

  /** ECMAScript's StrWhiteSpaceChar: white space and line terminators. */
  predicate IsStrWhiteSpace(c: char)
  {
    || c == ' ' || c == '\t' || c == '\n' || c == '\r'
    || c == '\U{000B}' || c == '\U{000C}' || c == '\U{00A0}' || c == '\U{1680}'
    || ('\U{2000}' <= c <= '\U{200A}')
    || c == '\U{2028}' || c == '\U{2029}' || c == '\U{202F}' || c == '\U{205F}'
    || c == '\U{3000}' || c == '\U{FEFF}'
  }

  function TrimStart(s: string): (r: string)
    ensures r == [] || !IsStrWhiteSpace(r[0])
    ensures |r| <= |s| && r == s[|s| - |r|..]
  {
    if s != [] && IsStrWhiteSpace(s[0]) then TrimStart(s[1..]) else s
  }

  /** The value of a digit character in bases up to 36; 36 for a non-digit. */
  function DigitValue(c: char): nat
  {
    if '0' <= c <= '9' then c as int - '0' as int
    else if 'a' <= c <= 'z' then c as int - 'a' as int + 10
    else if 'A' <= c <= 'Z' then c as int - 'A' as int + 10
    else 36
  }

  predicate IsDigit(c: char, radix: nat)
  {
    DigitValue(c) < radix
  }

  predicate IsDecimal(ds: string)
  {
    forall k :: 0 <= k < |ds| ==> '0' <= ds[k] <= '9'
  }

  /** The longest prefix of `s` made of digits of the given base. */
  function DigitPrefix(s: string, radix: nat): (ds: string)
  {
    if s != [] && IsDigit(s[0], radix) then [s[0]] + DigitPrefix(s[1..], radix) else []
  }

  /** The value of a digit string, most significant digit first. */
  function ValueOf(ds: string, radix: nat): nat
  {
    if ds == [] then 0 else ValueOf(ds[..|ds| - 1], radix) * radix + DigitValue(ds[|ds| - 1])
  }

  /** `parseInt(s)` with no radix. A negative zero is the integer 0 here.
      A number comes out only when the first character after the leading
      white space is a sign or a decimal digit, and a negative one only
      after a minus sign. */
  function ParseInt(s: string): (r: ParsedInt)
    ensures r.Num? ==> var t := TrimStart(s);
      t != [] && (t[0] == '-' || t[0] == '+' || IsDigit(t[0], 10))
    ensures r.Num? && r.value < 0 ==> var t := TrimStart(s); t != [] && t[0] == '-'
  {
    ParseTrimmed(TrimStart(s))
  }

  /** `parseInt` once the leading white space is gone. */
  function ParseTrimmed(t: string): (r: ParsedInt)
    ensures r.Num? ==> t != [] && (t[0] == '-' || t[0] == '+' || IsDigit(t[0], 10))
    ensures r.Num? && r.value < 0 ==> t != [] && t[0] == '-'
  {
    var negative := t != [] && t[0] == '-';
    var u := if t != [] && (t[0] == '-' || t[0] == '+') then t[1..] else t;
    var hex := |u| >= 2 && u[0] == '0' && (u[1] == 'x' || u[1] == 'X');
    var radix := if hex then 16 else 10;
    var ds := DigitPrefix(if hex then u[2..] else u, radix);
    if ds == [] then NaN
    else if negative then Num(-(ValueOf(ds, radix) as int))
    else Num(ValueOf(ds, radix))
  }

  lemma {:induction false} DigitPrefixOfDecimal(ds: string)
    requires IsDecimal(ds)
    ensures DigitPrefix(ds, 10) == ds
  {
    if ds != [] {
      DigitPrefixOfDecimal(ds[1..]);
      assert [ds[0]] + ds[1..] == ds;
    }
  }

  /** A plain run of decimal digits parses to its decimal value; leading
      zeros are allowed, so "08" is 8. */
  lemma ParseIntDecimal(ds: string)
    requires ds != [] && IsDecimal(ds)
    ensures ParseInt(ds) == Num(ValueOf(ds, 10))
  {
    assert !IsStrWhiteSpace(ds[0]);
    DigitPrefixOfDecimal(ds);
  }

  /** A leading minus sign negates the digits that follow it. */
  lemma ParseIntNegative(ds: string)
    requires ds != [] && IsDecimal(ds)
    ensures ParseInt("-" + ds) == Num(-(ValueOf(ds, 10) as int))
  {
    var s := "-" + ds;
    assert !IsStrWhiteSpace(s[0]);
    assert s[1..] == ds;
    DigitPrefixOfDecimal(ds);
  }

  /** Leading white space is skipped. */
  lemma ParseIntSkipsWhiteSpace(c: char, s: string)
    requires IsStrWhiteSpace(c)
    ensures ParseInt([c] + s) == ParseInt(s)
  {
    assert ([c] + s)[1..] == s;
    assert TrimStart([c] + s) == TrimStart(s);
  }

  /** A string that starts with anything other than white space, a sign or
      a digit is not a number: `parseInt("")`, `parseInt("undefined")` and
      `parseInt("am")` are NaN. */
  lemma ParseIntNoDigits(s: string)
    requires s == [] || (!IsStrWhiteSpace(s[0]) && s[0] != '-' && s[0] != '+' && !IsDigit(s[0], 10))
    ensures ParseInt(s) == NaN
  {
  }

  /** The digits of a number below 100, two characters wide ("08"). */
  function TwoDigits(n: nat): (ds: string)
    requires n < 100
  {
    [('0' as int + n / 10) as char, ('0' as int + n % 10) as char]
  }

  lemma TwoDigitsValue(n: nat)
    requires n < 100
    ensures IsDecimal(TwoDigits(n)) && ValueOf(TwoDigits(n), 10) == n
  {
    var ds := TwoDigits(n);
    assert ds[..1][..0] == [];
    assert ValueOf(ds[..1], 10) == n / 10;
  }
}
