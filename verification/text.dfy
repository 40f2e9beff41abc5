/** The string operations the client relies on: JavaScript's `split` on a
    one-character separator, and the decimal text of an integer that a template
    literal (`${count}`) produces. */
module Text {
  import opened Wrappers

  /** `s.split(sep)`: the pieces between separators, always at least one
      (the empty string splits into [""]). */
  function Split(s: string, sep: char): (parts: seq<string>)
    ensures |parts| >= 1
    ensures forall i :: 0 <= i < |parts| ==> sep !in parts[i]
    decreases |s|
  {
    if s == [] then [""]
    else
      var rest := Split(s[1..], sep);
      if s[0] == sep then [""] + rest
      else [[s[0]] + rest[0]] + rest[1..]
  }

  /** `parts.join(sep)`, the inverse of Split. */
  function Join(parts: seq<string>, sep: char): string
  {
    if parts == [] then ""
    else if |parts| == 1 then parts[0]
    else parts[0] + [sep] + Join(parts[1..], sep)
  }

  /** Joining the pieces back together gives the original string. */
  lemma {:induction false} JoinSplit(s: string, sep: char)
    ensures Join(Split(s, sep), sep) == s
    decreases |s|
  {
    if s != [] {
      JoinSplit(s[1..], sep);
      var rest := Split(s[1..], sep);
      if s[0] == sep {
        assert ([""] + rest)[1..] == rest;
      } else {
        var parts := [[s[0]] + rest[0]] + rest[1..];
        assert parts[1..] == rest[1..];
        if |rest| > 1 {
          assert Join(rest, sep) == rest[0] + [sep] + Join(rest[1..], sep);
          assert s == [s[0]] + s[1..];
        }
      }
    }
  }

  /** A string without the separator is one piece. */
  lemma {:induction false} SplitWhole(a: string, sep: char)
    requires sep !in a
    ensures Split(a, sep) == [a]
    decreases |a|
  {
    if a != [] {
      SplitWhole(a[1..], sep);
      assert [a[0]] + a[1..] == a;
    }
  }

  /** A separator-free prefix followed by a separator is the first piece. */
  lemma {:induction false} SplitAfterPiece(a: string, sep: char, t: string)
    requires sep !in a
    ensures Split(a + [sep] + t, sep) == [a] + Split(t, sep)
    decreases |a|
  {
    if a == [] {
      assert a + [sep] + t == [sep] + t;
      assert ([sep] + t)[1..] == t;
    } else {
      SplitAfterPiece(a[1..], sep, t);
      assert (a + [sep] + t)[1..] == a[1..] + [sep] + t;
      assert [a[0]] + a[1..] == a;
    }
  }

  /** Splitting a join of separator-free pieces gives the pieces back. */
  lemma {:induction false} SplitJoin(parts: seq<string>, sep: char)
    requires |parts| >= 1
    requires forall i :: 0 <= i < |parts| ==> sep !in parts[i]
    ensures Split(Join(parts, sep), sep) == parts
    decreases |parts|
  {
    if |parts| == 1 {
      SplitWhole(parts[0], sep);
    } else {
      SplitJoin(parts[1..], sep);
      SplitAfterPiece(parts[0], sep, Join(parts[1..], sep));
      assert [parts[0]] + parts[1..] == parts;
    }
  }

  /** `s.split('-')[0]`: the text before the first '-', or all of `s`. */
  function FirstSegment(s: string): string
  {
    Split(s, '-')[0]
  }

  /** `s.split('-')[1]`: the text between the first and second '-', or `undefined`
      (None) when `s` has no '-'. */
  function SecondSegment(s: string): Option<string>
  {
    var parts := Split(s, '-');
    if |parts| >= 2 then Some(parts[1]) else None
  }

  /** The first segment is the longest '-'-free prefix of `s`. */
  lemma FirstSegmentIsPrefix(s: string)
    ensures var f := FirstSegment(s);
      && f <= s
      && '-' !in f
      && (|f| < |s| ==> s[|f|] == '-')
  {
    JoinSplit(s, '-');
    var parts := Split(s, '-');
    if |parts| > 1 {
      assert s == parts[0] + ['-'] + Join(parts[1..], '-');
    }
  }

  /** The second segment is what follows the first '-', up to the next one. */
  lemma SecondSegmentFollowsFirst(s: string)
    ensures SecondSegment(s).Some? <==> '-' in s
    ensures SecondSegment(s).Some? ==>
      var f, g := FirstSegment(s), SecondSegment(s).value;
      && f + ['-'] + g <= s
      && '-' !in g
      && (|f| + 1 + |g| < |s| ==> s[|f| + 1 + |g|] == '-')
  {
    JoinSplit(s, '-');
    var parts := Split(s, '-');
    if |parts| > 1 {
      var tail := Join(parts[1..], '-');
      assert s == parts[0] + ['-'] + tail;
      assert Split(tail, '-') == parts[1..] by {
        SplitJoin(parts[1..], '-');
      }
      FirstSegmentIsPrefix(tail);
      assert '-' in s by { assert s[|parts[0]|] == '-'; }
    } else {
      assert s == parts[0];
    }
  }

  lemma TickerSegments()
    ensures FirstSegment("KRW-BTC") == "KRW"
    ensures SecondSegment("KRW-KRW") == Some("KRW")
    ensures SecondSegment("KRW") == None
  {
    SplitAfterPiece("KRW", '-', "BTC");
    assert "KRW-BTC" == "KRW" + ['-'] + "BTC";
    SplitAfterPiece("KRW", '-', "KRW");
    assert "KRW-KRW" == "KRW" + ['-'] + "KRW";
    SplitWhole("KRW", '-');
  }

  /** The decimal digit for 0 <= d < 10. */
  function DigitChar(d: nat): (c: char)
    requires d < 10
    ensures '0' <= c <= '9'
  {
    ('0' as int + d) as char
  }

  /** The decimal digits of a natural number, without leading zeros. */
  function Digits(n: nat): (s: string)
    ensures |s| >= 1
    ensures forall i :: 0 <= i < |s| ==> '0' <= s[i] <= '9'
    ensures s[0] == '0' ==> n == 0
    decreases n
  {
    if n < 10 then [DigitChar(n)] else Digits(n / 10) + [DigitChar(n % 10)]
  }

  /** The number a string of decimal digits denotes. */
  function DigitsValue(s: string): nat
    requires forall i :: 0 <= i < |s| ==> '0' <= s[i] <= '9'
  {
    if s == [] then 0 else DigitsValue(s[..|s| - 1]) * 10 + (s[|s| - 1] as int - '0' as int)
  }

  /** Reading the digits back gives the number. */
  lemma {:induction false} DigitsRoundTrip(n: nat)
    ensures DigitsValue(Digits(n)) == n
    decreases n
  {
    if n >= 10 {
      DigitsRoundTrip(n / 10);
      var s := Digits(n);
      assert s[..|s| - 1] == Digits(n / 10);
    }
  }

  /** `${n}` for an integer n: an optional '-' and the digits of |n|. */
  function Decimal(n: int): string
  {
    if n < 0 then "-" + Digits(-n) else Digits(n)
  }

  /** Distinct natural numbers have distinct digits. */
  lemma DigitsInjective(a: nat, b: nat)
    requires Digits(a) == Digits(b)
    ensures a == b
  {
    DigitsRoundTrip(a);
    DigitsRoundTrip(b);
  }

  /** The text starts with '-' exactly for negative numbers. */
  lemma DecimalSign(n: int)
    ensures |Decimal(n)| >= 1
    ensures Decimal(n)[0] == '-' <==> n < 0
    ensures n < 0 ==> Decimal(n)[1..] == Digits(-n)
  {
    if n < 0 {
      assert ("-" + Digits(-n))[1..] == Digits(-n);
    }
  }

  /** Distinct integers have distinct decimal text. */
  lemma DecimalInjective(m: int, n: int)
    requires Decimal(m) == Decimal(n)
    ensures m == n
  {
    DecimalSign(m);
    DecimalSign(n);
    if m < 0 {
      DigitsInjective(-m, -n);
    } else {
      DigitsInjective(m, n);
    }
  }
}
