/** The parts of Java's `String`, `Integer` and `Long` that the configuration
    code relies on: `toLowerCase`, `startsWith`, `replace`, `split` with one
    separator character, and radix-10 parsing. */
module JavaText {
  import opened Basics

  // ---------------------------------------------------------------------
  // String.toLowerCase (ASCII letters)

  predicate IsUpper(c: char) { 'A' <= c <= 'Z' }

  function LowerChar(c: char): char
  {
    if IsUpper(c) then (c as int + ('a' as int - 'A' as int)) as char else c
  }

  function ToLower(s: string): string
    decreases |s|
  {
    if s == [] then [] else [LowerChar(s[0])] + ToLower(s[1..])
  }

  /** Lower-casing keeps the length, works character by character and leaves
      no upper-case letter behind. */
  lemma {:induction false} ToLowerShape(s: string)
    ensures |ToLower(s)| == |s|
    ensures forall i :: 0 <= i < |s| ==> ToLower(s)[i] == LowerChar(s[i])
    ensures forall i :: 0 <= i < |s| ==> !IsUpper(ToLower(s)[i])
    decreases |s|
  {
    if s != [] {
      ToLowerShape(s[1..]);
      var r := ToLower(s);
      assert r == [LowerChar(s[0])] + ToLower(s[1..]);
      forall i | 0 <= i < |s| ensures r[i] == LowerChar(s[i]) {
        if i > 0 { assert r[i] == ToLower(s[1..])[i - 1]; }
      }
    }
  }

  lemma {:induction false} ToLowerIdempotent(s: string)
    ensures ToLower(ToLower(s)) == ToLower(s)
    decreases |s|
  {
    if s != [] {
      ToLowerIdempotent(s[1..]);
      var r := ToLower(s);
      assert r[1..] == ToLower(s[1..]);
    }
  }

  // ---------------------------------------------------------------------
  // String.startsWith and String.replace

  predicate StartsWith(s: string, prefix: string)
  {
    |prefix| <= |s| && s[..|prefix|] == prefix
  }

  /** `s.replace(target, replacement)`: every non-overlapping occurrence of
      `target`, found scanning left to right, is replaced; the replacement
      text is not scanned again. */
  function Replace(s: string, target: string, replacement: string): string
    requires target != []
    decreases |s|
  {
    if |s| < |target| then s
    else if s[..|target|] == target then replacement + Replace(s[|target|..], target, replacement)
    else [s[0]] + Replace(s[1..], target, replacement)
  }

  /** `target` occurs somewhere in `s`. */
  predicate Occurs(target: string, s: string)
  {
    exists i :: 0 <= i <= |s| && StartsWith(s[i..], target)
  }

  /** A string without an occurrence of the target is left as it is. */
  lemma {:induction false} ReplaceWithoutOccurrence(s: string, target: string, replacement: string)
    requires target != []
    requires !Occurs(target, s)
    ensures Replace(s, target, replacement) == s
    decreases |s|
  {
    if |s| >= |target| {
      assert s[0..] == s;
      assert !StartsWith(s[0..], target);
      forall i | 0 <= i <= |s[1..]| ensures !StartsWith(s[1..][i..], target) {
        assert s[1..][i..] == s[i + 1..];
      }
      ReplaceWithoutOccurrence(s[1..], target, replacement);
    }
  }

  /** Removing a prefix that occurs nowhere else yields the rest. */
  lemma RemovePrefix(target: string, rest: string)
    requires target != []
    requires !Occurs(target, rest)
    ensures Replace(target + rest, target, []) == rest
  {
    var s := target + rest;
    assert s[..|target|] == target;
    assert s[|target|..] == rest;
    ReplaceWithoutOccurrence(rest, target, []);
  }

  // ---------------------------------------------------------------------
  // String.split with a one-character separator (limit 0)

  /** Every piece between separators, the empty ones included. */
  function Pieces(s: string, sep: char): (parts: seq<string>)
    ensures |parts| >= 1
    decreases |s|
  {
    if s == [] then [[]]
    else
      var rest := Pieces(s[1..], sep);
      if s[0] == sep then [[]] + rest
      else [[s[0]] + rest[0]] + rest[1..]
  }

  function DropTrailingEmpty(parts: seq<string>): seq<string>
    decreases |parts|
  {
    if parts != [] && parts[|parts| - 1] == [] then DropTrailingEmpty(parts[..|parts| - 1])
    else parts
  }

  /** `s.split(sep)`: a string without the separator is its own only piece;
      otherwise the pieces, with the trailing empty ones removed. */
  function Split(s: string, sep: char): seq<string>
  {
    if sep !in s then [s] else DropTrailingEmpty(Pieces(s, sep))
  }

  function Join(parts: seq<string>, sep: char): string
    decreases |parts|
  {
    if |parts| == 0 then []
    else if |parts| == 1 then parts[0]
    else parts[0] + [sep] + Join(parts[1..], sep)
  }

  function Repeat(c: char, k: nat): string { seq(k, _ => c) }

  function Empties(k: nat): seq<string> { seq(k, _ => []) }

  /** Joining the pieces with the separator gives back the string. */
  lemma {:induction false} JoinPieces(s: string, sep: char)
    ensures Join(Pieces(s, sep), sep) == s
    decreases |s|
  {
    if s != [] {
      JoinPieces(s[1..], sep);
      var rest := Pieces(s[1..], sep);
      if s[0] == sep {
        assert ([[]] + rest)[1..] == rest;
      } else if |rest| > 1 {
        assert ([[s[0]] + rest[0]] + rest[1..])[1..] == rest[1..];
      }
    }
  }

  /** No piece contains the separator. */
  lemma {:induction false} PiecesHaveNoSeparator(s: string, sep: char)
    ensures forall i :: 0 <= i < |Pieces(s, sep)| ==> sep !in Pieces(s, sep)[i]
    decreases |s|
  {
    if s != [] {
      PiecesHaveNoSeparator(s[1..], sep);
      var rest := Pieces(s[1..], sep);
      if s[0] != sep {
        var parts := Pieces(s, sep);
        forall i | 0 <= i < |parts| ensures sep !in parts[i] {
          if i > 0 { assert parts[i] == rest[i]; }
        }
      }
    }
  }

  /** A separator after a separator-free head starts a new piece. */
  lemma {:induction false} PiecesAfterHead(a: string, sep: char, b: string)
    requires sep !in a
    ensures Pieces(a + [sep] + b, sep) == [a] + Pieces(b, sep)
    decreases |a|
  {
    var s := a + [sep] + b;
    if a == [] {
      assert s[1..] == b;
    } else {
      assert s[1..] == a[1..] + [sep] + b;
      PiecesAfterHead(a[1..], sep, b);
      assert [a[0]] + a[1..] == a;
    }
  }

  /** A separator-free head followed only by separators. */
  lemma {:induction false} PiecesOfTrailingSeparators(b: string, sep: char, k: nat)
    requires sep !in b
    ensures Pieces(b + Repeat(sep, k), sep) == [b] + Empties(k)
    decreases k, |b|
  {
    if k == 0 {
      assert b + Repeat(sep, 0) == b;
      PiecesOfSeparatorFree(b, sep);
    } else {
      assert b + Repeat(sep, k) == b + [sep] + Repeat(sep, k - 1);
      PiecesAfterHead(b, sep, Repeat(sep, k - 1));
      PiecesOfTrailingSeparators([], sep, k - 1);
      assert [] + Repeat(sep, k - 1) == Repeat(sep, k - 1);
      assert [[]] + Empties(k - 1) == Empties(k);
    }
  }

  lemma {:induction false} PiecesOfSeparatorFree(b: string, sep: char)
    requires sep !in b
    ensures Pieces(b, sep) == [b]
    decreases |b|
  {
    if b != [] {
      PiecesOfSeparatorFree(b[1..], sep);
      assert [b[0]] + b[1..] == b;
    }
  }

  /** Dropping trailing empty pieces leaves a prefix followed only by empty pieces. */
  lemma {:induction false} DropTrailingEmptyShape(parts: seq<string>)
    ensures var kept := DropTrailingEmpty(parts);
      |kept| <= |parts| && parts == kept + Empties(|parts| - |kept|)
    ensures var kept := DropTrailingEmpty(parts);
      kept == [] || kept[|kept| - 1] != []
    decreases |parts|
  {
    if parts != [] && parts[|parts| - 1] == [] {
      var init := parts[..|parts| - 1];
      DropTrailingEmptyShape(init);
      var kept := DropTrailingEmpty(init);
      assert init == kept + Empties(|init| - |kept|);
      assert parts == init + [[]];
      assert Empties(|init| - |kept|) + [[]] == Empties(|parts| - |kept|);
    } else {
      assert parts == parts + Empties(0);
    }
  }

  lemma {:induction false} DropTrailingEmptyKeepsLast(parts: seq<string>, k: nat)
    requires parts != [] && parts[|parts| - 1] != []
    ensures DropTrailingEmpty(parts + Empties(k)) == parts
    decreases k
  {
    if k > 0 {
      var longer := parts + Empties(k);
      assert longer[..|longer| - 1] == parts + Empties(k - 1);
      DropTrailingEmptyKeepsLast(parts, k - 1);
    } else {
      assert parts + Empties(0) == parts;
    }
  }

  lemma {:induction false} JoinSnoc(parts: seq<string>, last: string, sep: char)
    requires |parts| >= 1
    ensures Join(parts + [last], sep) == Join(parts, sep) + [sep] + last
    decreases |parts|
  {
    if |parts| > 1 {
      assert (parts + [last])[1..] == parts[1..] + [last];
      JoinSnoc(parts[1..], last, sep);
    }
  }

  lemma {:induction false} JoinWithEmpties(parts: seq<string>, k: nat, sep: char)
    requires |parts| >= 1
    ensures Join(parts + Empties(k), sep) == Join(parts, sep) + Repeat(sep, k)
    decreases k
  {
    if k == 0 {
      assert parts + Empties(0) == parts;
      assert Join(parts, sep) + Repeat(sep, 0) == Join(parts, sep);
    } else {
      assert parts + Empties(k) == (parts + Empties(k - 1)) + [[]];
      JoinSnoc(parts + Empties(k - 1), [], sep);
      JoinWithEmpties(parts, k - 1, sep);
      assert Repeat(sep, k - 1) + [sep] == Repeat(sep, k);
    }
  }

  // ---------------------------------------------------------------------
  // Integer.parseInt / Long.parseLong, radix 10

  predicate IsDigit(c: char) { '0' <= c <= '9' }

  predicate AllDigits(s: string) { forall i :: 0 <= i < |s| ==> IsDigit(s[i]) }

  function DigitsValue(s: string): nat
    requires AllDigits(s)
    decreases |s|
  {
    if s == [] then 0 else DigitsValue(s[..|s| - 1]) * 10 + (s[|s| - 1] as int - '0' as int)
  }

  /** An optional sign followed by at least one digit, whose value lies in
      `[lo, hi]`; anything else is a `NumberFormatException`. */
  function ParseDecimal(s: string, lo: int, hi: int): (r: Option<int>)
    ensures r.Some? ==> lo <= r.value <= hi
  {
    if s == [] then None
    else
      var digits := if s[0] == '-' || s[0] == '+' then s[1..] else s;
      if digits == [] || !AllDigits(digits) then None
      else
        var magnitude: int := DigitsValue(digits);
        var v := if s[0] == '-' then -magnitude else magnitude;
        if lo <= v <= hi then Some(v) else None
  }

  /** `Integer.valueOf(s)`; a null argument is a `NumberFormatException` too. */
  function IntegerValueOf(s: Option<string>): (r: Result<int32>)
    ensures r.Err? ==> r.failure == NumberFormat(s)
    ensures s.None? ==> r == Err(NumberFormat(None))
    ensures s.Some? ==> (r.Ok? <==> ParseDecimal(s.value, INT_MIN, INT_MAX).Some?)
    ensures s.Some? && r.Ok? ==> ParseDecimal(s.value, INT_MIN, INT_MAX) == Some(r.value as int)
  {
    match s
    case None => Err(NumberFormat(None))
    case Some(t) =>
      match ParseDecimal(t, INT_MIN, INT_MAX)
      case None => Err(NumberFormat(s))
      case Some(v) => Ok(v)
  }

  /** `Long.valueOf(s)`, `None` standing for the exception. */
  function LongValueOf(s: string): (r: Option<int64>)
    ensures r.Some? <==> ParseDecimal(s, LONG_MIN, LONG_MAX).Some?
    ensures r.Some? ==> ParseDecimal(s, LONG_MIN, LONG_MAX) == Some(r.value as int)
  {
    match ParseDecimal(s, LONG_MIN, LONG_MAX)
    case None => None
    case Some(v) => Some(v)
  }

  // ---------------------------------------------------------------------
  // Decimal rendering, the inverse of the parsers above

  function DigitChar(d: nat): char
    requires d < 10
  {
    ('0' as int + d) as char
  }

  function NatToString(n: nat): (r: string)
    ensures r != [] && AllDigits(r)
    decreases n
  {
    if n < 10 then [DigitChar(n)] else NatToString(n / 10) + [DigitChar(n % 10)]
  }

  function IntToString(n: int): string
  {
    if n < 0 then "-" + NatToString(-n) else NatToString(n)
  }

  lemma {:induction false} NatToStringValue(n: nat)
    ensures DigitsValue(NatToString(n)) == n
    decreases n
  {
    if n >= 10 {
      NatToStringValue(n / 10);
      var s := NatToString(n);
      assert s[..|s| - 1] == NatToString(n / 10);
    }
  }

  /** Parsing a rendered number gives the number back. */
  lemma ParseRenderedDecimal(n: int, lo: int, hi: int)
    requires lo <= n <= hi
    ensures ParseDecimal(IntToString(n), lo, hi) == Some(n)
  {
    var s := IntToString(n);
    if n < 0 {
      var m := NatToString(-n);
      NatToStringValue(-n);
      assert s == ['-'] + m;
      assert s[1..] == m;
      assert DigitsValue(s[1..]) == -n;
    } else {
      var m := NatToString(n);
      NatToStringValue(n);
      assert IsDigit(s[0]);
      assert DigitsValue(s) == n;
    }
  }

  /** A sign `parseInt` accepts in front of the digits. */
  predicate IsSign(sign: string) { sign == "" || sign == "+" || sign == "-" }

  function Abs(n: int): nat { if n < 0 then -n else n }

  /** The value a sign gives a magnitude. */
  function Signed(sign: string, m: nat): int { if sign == "-" then -(m as int) else m }

  /** A digit string without a leading zero has a positive value. */
  lemma {:induction false} LeadingDigitPositive(d: string)
    requires d != [] && AllDigits(d) && d[0] != '0'
    ensures DigitsValue(d) >= 1
    decreases |d|
  {
    if |d| > 1 {
      var front := d[..|d| - 1];
      assert front[0] == d[0];
      LeadingDigitPositive(front);
    }
  }

  /** A digit string without a leading zero (or the single digit 0) is the
      rendering of its value. */
  lemma {:induction false} CanonicalDigits(d: string)
    requires d != [] && AllDigits(d) && (d[0] != '0' || |d| == 1)
    ensures NatToString(DigitsValue(d)) == d
    decreases |d|
  {
    if |d| == 1 {
      assert d[..0] == [];
      assert DigitChar(DigitsValue(d)) == d[0];
    } else {
      var front := d[..|d| - 1];
      assert front[0] == d[0];
      LeadingDigitPositive(front);
      CanonicalDigits(front);
      var n := DigitsValue(d);
      var k := d[|d| - 1] as int - '0' as int;
      assert n == DigitsValue(front) * 10 + k && 0 <= k < 10;
      assert n / 10 == DigitsValue(front) && n % 10 == k;
      assert DigitChar(k) == d[|d| - 1];
      assert d == front + [d[|d| - 1]];
    }
  }

  /** A leading zero does not change the value. */
  lemma {:induction false} LeadingZeroValue(e: string)
    requires AllDigits(e)
    ensures AllDigits(['0'] + e) && DigitsValue(['0'] + e) == DigitsValue(e)
    decreases |e|
  {
    var d := ['0'] + e;
    if e == [] {
      assert d[..0] == [];
    } else {
      var front := e[..|e| - 1];
      LeadingZeroValue(front);
      assert d[..|d| - 1] == ['0'] + front;
      assert d[|d| - 1] == e[|e| - 1];
    }
  }

  /** Nor does any number of leading zeros. */
  lemma {:induction false} LeadingZerosValue(zeros: nat, e: string)
    requires AllDigits(e)
    ensures AllDigits(Repeat('0', zeros) + e) && DigitsValue(Repeat('0', zeros) + e) == DigitsValue(e)
    decreases zeros
  {
    if zeros == 0 {
      assert Repeat('0', zeros) + e == e;
    } else {
      LeadingZerosValue(zeros - 1, e);
      LeadingZeroValue(Repeat('0', zeros - 1) + e);
      assert Repeat('0', zeros) + e == ['0'] + (Repeat('0', zeros - 1) + e);
    }
  }

  /** Every digit string is some zeros followed by the rendering of its value. */
  lemma {:induction false} DigitsShape(d: string)
    requires d != [] && AllDigits(d)
    ensures exists zeros: nat :: d == Repeat('0', zeros) + NatToString(DigitsValue(d))
    decreases |d|
  {
    if d[0] != '0' || |d| == 1 {
      CanonicalDigits(d);
      assert Repeat('0', 0) == [];
      assert d == Repeat('0', 0) + NatToString(DigitsValue(d));
    } else {
      var rest := d[1..];
      assert d == ['0'] + rest;
      LeadingZeroValue(rest);
      DigitsShape(rest);
      var zeros: nat :| rest == Repeat('0', zeros) + NatToString(DigitsValue(rest));
      ZerosGrow(zeros, rest, NatToString(DigitsValue(rest)));
      assert d == Repeat('0', zeros + 1) + NatToString(DigitsValue(d));
    }
  }

  lemma ZerosGrow(zeros: nat, rest: string, tail: string)
    requires rest == Repeat('0', zeros) + tail
    ensures ['0'] + rest == Repeat('0', zeros + 1) + tail
  {
    assert Repeat('0', zeros + 1) == ['0'] + Repeat('0', zeros);
  }

  /** The sign and the digits of an accepted text. */
  lemma ParseDecimalParts(s: string, lo: int, hi: int) returns (sign: string, digits: string)
    requires ParseDecimal(s, lo, hi).Some?
    ensures IsSign(sign) && s == sign + digits && digits != [] && AllDigits(digits)
    ensures ParseDecimal(s, lo, hi).value == Signed(sign, DigitsValue(digits))
  {
    var signed := s[0] == '-' || s[0] == '+';
    sign := if signed then [s[0]] else [];
    digits := if signed then s[1..] else s;
    assert s == sign + digits;
  }

  /** A sign and a digit string within the range are accepted with their value. */
  lemma ParseDecimalOfParts(sign: string, digits: string, lo: int, hi: int)
    requires IsSign(sign) && digits != [] && AllDigits(digits)
    requires lo <= Signed(sign, DigitsValue(digits)) <= hi
    ensures ParseDecimal(sign + digits, lo, hi) == Some(Signed(sign, DigitsValue(digits)))
  {
    var s := sign + digits;
    assert IsDigit(digits[0]);
    assert s[|sign|..] == digits;
  }

  /** The texts `parseInt` accepts are exactly an optional sign, any number
      of zeros and the rendering of the magnitude: every accepted text has
      that form and denotes that value ... */
  lemma ParseDecimalShape(s: string, lo: int, hi: int)
    requires ParseDecimal(s, lo, hi).Some?
    ensures var v := ParseDecimal(s, lo, hi).value;
      exists sign: string, zeros: nat ::
        && IsSign(sign) && (v < 0 ==> sign == "-") && (v > 0 ==> sign != "-")
        && s == sign + Repeat('0', zeros) + NatToString(Abs(v))
  {
    var v := ParseDecimal(s, lo, hi).value;
    var sign, digits := ParseDecimalParts(s, lo, hi);
    DigitsShape(digits);
    var zeros: nat :| digits == Repeat('0', zeros) + NatToString(DigitsValue(digits));
    assert Abs(v) == DigitsValue(digits);
    Associative(sign, Repeat('0', zeros), NatToString(Abs(v)));
    assert IsSign(sign) && (v < 0 ==> sign == "-") && (v > 0 ==> sign != "-");
    assert s == sign + Repeat('0', zeros) + NatToString(Abs(v));
  }

  lemma Associative(a: string, b: string, c: string)
    ensures a + (b + c) == a + b + c
  {
  }

  /** ... and every text of that form within the range is accepted with
      that value. */
  lemma ParseDecimalOfShape(sign: string, zeros: nat, m: nat, lo: int, hi: int)
    requires IsSign(sign)
    requires lo <= Signed(sign, m) <= hi
    ensures ParseDecimal(sign + Repeat('0', zeros) + NatToString(m), lo, hi) == Some(Signed(sign, m))
  {
    var digits := Repeat('0', zeros) + NatToString(m);
    LeadingZerosValue(zeros, NatToString(m));
    NatToStringValue(m);
    ParseDecimalOfParts(sign, digits, lo, hi);
    Associative(sign, Repeat('0', zeros), NatToString(m));
  }

  /** A rendered number contains no colon. */
  lemma RenderedDecimalHasNoColon(n: int)
    ensures ':' !in IntToString(n)
  {
    var s := IntToString(n);
    if n < 0 {
      assert s[1..] == NatToString(-n);
      assert forall i :: 1 <= i < |s| ==> IsDigit(s[i]) by {
        forall i | 1 <= i < |s| ensures IsDigit(s[i]) { assert s[i] == s[1..][i - 1]; }
      }
    }
  }
}
