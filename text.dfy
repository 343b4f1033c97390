/** The few pieces of Go's strconv, strings, fmt and path/filepath that the
    core relies on, over strings as sequences of characters. */
module Text {
  import opened Common

  const MaxInt64: int := 0x7fff_ffff_ffff_ffff
  const MinInt64: int := -0x8000_0000_0000_0000

  predicate IsDigit(c: char) { '0' <= c <= '9' }

  predicate AllDigits(s: string) { forall i :: 0 <= i < |s| ==> IsDigit(s[i]) }

  function DigitChar(d: nat): (c: char)
    requires d < 10
    ensures IsDigit(c) && c as int - '0' as int == d
  {
    "0123456789"[d]
  }

  function DigitValue(c: char): nat
    requires IsDigit(c)
  {
    c as int - '0' as int
  }

  /** strconv.FormatInt(n, 10) for n >= 0: the shortest decimal rendering. */
  function NatToDecimal(n: nat): (s: string)
    ensures 1 <= |s| && AllDigits(s)
    ensures |s| > 1 ==> s[0] != '0'
    decreases n
  {
    if n < 10 then [DigitChar(n)] else NatToDecimal(n / 10) + [DigitChar(n % 10)]
  }

  /** strconv.Itoa / strconv.FormatInt(n, 10). */
  function Itoa(n: int): string
  {
    if n < 0 then "-" + NatToDecimal(-n) else NatToDecimal(n)
  }

  /** The value of a string of decimal digits, read most significant first. */
  function DecimalValue(s: string): nat
    requires AllDigits(s)
  {
    if s == [] then 0 else DecimalValue(s[..|s| - 1]) * 10 + DigitValue(s[|s| - 1])
  }

  lemma {:induction false} DecimalRoundTrip(n: nat)
    ensures DecimalValue(NatToDecimal(n)) == n
  {
    if n >= 10 {
      DecimalRoundTrip(n / 10);
      var s := NatToDecimal(n);
      assert s[..|s| - 1] == NatToDecimal(n / 10);
    }
  }

  /** What strconv.ParseInt(s, 10, 64) (and strconv.Atoi on a 64-bit platform)
      makes of s: an optional sign and at least one decimal digit, within the
      int64 range. */
  datatype IntParse = Parsed(value: int) | SyntaxError | RangeError(clamped: int)
  {
    /** The integer Go returns beside the error: 0 on a syntax error, the
        nearest int64 bound on a range error. */
    function Returned(): int
    {
      match this
      case Parsed(v) => v
      case SyntaxError => 0
      case RangeError(c) => c
    }
  }

  const MaxUint64: int := 0xffff_ffff_ffff_ffff

  /** How ParseUint's loop over the digits ends. */
  datatype DigitScan = Digits(value: nat) | BadCharacter | TooLarge

  /** ParseUint's loop in base 10, with `acc` read so far: the characters
      are read left to right, and the loop stops at the first one that is
      not a digit (a syntax error) or at the first digit that takes the
      value past 2^64 - 1 (a range error), whichever comes first. */
  function ScanDigits(s: string, acc: nat): DigitScan
    decreases |s|
  {
    if s == [] then Digits(acc)
    else if !IsDigit(s[0]) then BadCharacter
    else if acc * 10 + DigitValue(s[0]) > MaxUint64 then TooLarge
    else ScanDigits(s[1..], acc * 10 + DigitValue(s[0]))
  }

  /** ParseInt strips one sign and runs ParseUint on the rest: a range error
      there is clamped to the int64 bound of the sign, and so is a value
      that fits 64 bits but not int64. */
  function ParseInt(s: string): (r: IntParse)
    ensures r.Parsed? ==> MinInt64 <= r.value <= MaxInt64
    ensures r.RangeError? ==> r.clamped == MinInt64 || r.clamped == MaxInt64
    ensures s == "" ==> r == SyntaxError
  {
    var neg := |s| > 0 && s[0] == '-';
    var body := if |s| > 0 && (s[0] == '-' || s[0] == '+') then s[1..] else s;
    if body == [] then SyntaxError
    else match ScanDigits(body, 0)
      case BadCharacter => SyntaxError
      case TooLarge => RangeError(if neg then MinInt64 else MaxInt64)
      case Digits(u) => var w: int := u; Clamp(if neg then -w else w)
  }

  /** A 64-bit magnitude with its sign, as int64: the nearest bound with a
      range error when it does not fit. */
  function Clamp(v: int): IntParse
  {
    if v > MaxInt64 then RangeError(MaxInt64)
    else if v < MinInt64 then RangeError(MinInt64)
    else Parsed(v)
  }

  /** 10^k. */
  function Ten(k: nat): (r: nat)
    ensures r >= 1
  {
    if k == 0 then 1 else 10 * Ten(k - 1)
  }

  /** DecimalValue reads from the right; this is the same value read from
      the left. */
  lemma {:induction false} DecimalFront(s: string)
    requires s != [] && AllDigits(s)
    ensures DecimalValue(s) == DigitValue(s[0]) * Ten(|s| - 1) + DecimalValue(s[1..])
    decreases |s|
  {
    var n := |s|;
    if n > 1 {
      var init, tail := s[..n - 1], s[1..];
      DecimalFront(init);
      assert tail[..n - 2] == init[1..] && tail[n - 2] == s[n - 1] && init[0] == s[0];
      assert DecimalValue(tail) == DecimalValue(init[1..]) * 10 + DigitValue(s[n - 1]);
      assert Ten(n - 1) == 10 * Ten(n - 2);
      Regroup(DigitValue(s[0]), Ten(n - 2), DecimalValue(init[1..]), DigitValue(s[n - 1]));
    } else {
      assert s[..0] == [] && s[1..] == [];
    }
  }

  lemma Regroup(d: nat, t: nat, x: nat, y: nat)
    ensures (d * t + x) * 10 + y == d * (10 * t) + (x * 10 + y)
  {
  }

  /** One more digit d in front of a tail worth `rest` below t = 10^k. */
  lemma ShiftDigit(acc: nat, d: nat, t: nat, rest: nat)
    requires t >= 1
    ensures acc * (10 * t) + (d * t + rest) == (acc * 10 + d) * t + rest
    ensures (acc * 10 + d) * t + rest >= acc * 10 + d
  {
    assert acc * (10 * t) == (acc * 10) * t;
    assert (acc * 10 + d) * t == (acc * 10) * t + d * t;
    assert (acc * 10 + d) * t >= (acc * 10 + d) * 1;
  }

  /** On digits only, the loop from a 64-bit acc ends with acc followed by
      the digits, or with the range error when that passes 2^64 - 1. */
  lemma {:induction false} ScanAllDigits(s: string, acc: nat)
    requires AllDigits(s) && acc <= MaxUint64
    ensures var total := acc * Ten(|s|) + DecimalValue(s);
            ScanDigits(s, acc) == if total > MaxUint64 then TooLarge else Digits(total)
    decreases |s|
  {
    if s != [] {
      var n := |s|;
      var d := DigitValue(s[0]);
      var next := acc * 10 + d;
      DecimalFront(s);
      assert Ten(n) == 10 * Ten(n - 1);
      ShiftDigit(acc, d, Ten(n - 1), DecimalValue(s[1..]));
      assert acc * Ten(|s|) + DecimalValue(s) == next * Ten(|s[1..]|) + DecimalValue(s[1..]);
      if next <= MaxUint64 {
        ScanAllDigits(s[1..], next);
      }
    }
  }

  /** A character that is not a digit after a run of digits: the run
      decides whether the loop stops there or before it. */
  lemma {:induction false} ScanStops(digits: string, c: char, rest: string, acc: nat)
    requires AllDigits(digits) && !IsDigit(c) && acc <= MaxUint64
    ensures var total := acc * Ten(|digits|) + DecimalValue(digits);
            ScanDigits(digits + [c] + rest, acc) == if total > MaxUint64 then TooLarge else BadCharacter
    decreases |digits|
  {
    var s := digits + [c] + rest;
    if digits == [] {
      assert s[0] == c;
    } else {
      var n := |digits|;
      var d := DigitValue(digits[0]);
      var next := acc * 10 + d;
      DecimalFront(digits);
      assert Ten(n) == 10 * Ten(n - 1);
      ShiftDigit(acc, d, Ten(n - 1), DecimalValue(digits[1..]));
      assert acc * Ten(|digits|) + DecimalValue(digits) == next * Ten(|digits[1..]|) + DecimalValue(digits[1..]);
      assert s[0] == digits[0] && s[1..] == digits[1..] + [c] + rest;
      if next <= MaxUint64 {
        ScanStops(digits[1..], c, rest, next);
      }
    }
  }

  /** ParseInt on a sign followed by digits only: the value, clamped to the
      int64 range. */
  lemma ParseIntDigits(s: string, body: string)
    requires body == (if |s| > 0 && (s[0] == '-' || s[0] == '+') then s[1..] else s)
    requires body != [] && AllDigits(body)
    ensures var d: int := DecimalValue(body);
            ParseInt(s) == Clamp(if |s| > 0 && s[0] == '-' then -d else d)
  {
    ScanAllDigits(body, 0);
  }

  /** A character that is not a digit, after an optional sign and a run of
      digits: the run decides. Digits already past 2^64 - 1 give the range
      error with the bound of the sign, whatever follows; otherwise the
      character is a syntax error and the value returned is 0. */
  lemma ParseIntStopsAtNonDigit(sign: string, digits: string, c: char, rest: string)
    requires sign == "" || sign == "-" || sign == "+"
    requires sign == "" && digits == [] ==> c != '-' && c != '+'
    requires AllDigits(digits) && !IsDigit(c)
    ensures var r := ParseInt(sign + digits + [c] + rest);
            if DecimalValue(digits) > MaxUint64 then r == RangeError(if sign == "-" then MinInt64 else MaxInt64)
            else r == SyntaxError && r.Returned() == 0
  {
    var s := sign + digits + [c] + rest;
    var body := digits + [c] + rest;
    if sign != "" {
      assert s[0] == sign[0] && s[1..] == body;
    } else {
      assert s == body && s[0] == (if digits == [] then c else digits[0]);
    }
    ScanStops(digits, c, rest, 0);
  }

  /** k nines, and their value 10^k - 1. */
  function Nines(k: nat): (s: string)
    ensures |s| == k && AllDigits(s)
  {
    if k == 0 then "" else Nines(k - 1) + "9"
  }

  lemma {:induction false} NinesValue(k: nat)
    ensures DecimalValue(Nines(k)) == Ten(k) - 1
  {
    if k > 0 {
      NinesValue(k - 1);
      assert Nines(k)[..k - 1] == Nines(k - 1);
    }
  }

  lemma {:induction false} TenAdd(a: nat, b: nat)
    ensures Ten(a + b) == Ten(a) * Ten(b)
  {
    if b > 0 {
      TenAdd(a, b - 1);
    }
  }

  lemma {:induction false} NinesAdd(a: nat, b: nat)
    ensures Nines(a + b) == Nines(a) + Nines(b)
  {
    if b > 0 {
      NinesAdd(a, b - 1);
    }
  }

  lemma TwentyNines()
    ensures Nines(20) == "99999999999999999999" && DecimalValue(Nines(20)) > MaxUint64
  {
    NinesValue(20);
    TenTwenty();
    NinesTwenty();
  }

  lemma TenTwenty()
    ensures Ten(20) == 100_000_000_000_000_000_000
  {
    TenAdd(10, 10);
    TenAdd(5, 5);
    assert Ten(5) == 100000;
  }

  lemma NinesTwenty()
    ensures Nines(20) == "99999999999999999999"
  {
    NinesAdd(10, 10);
    NinesAdd(5, 5);
    assert Nines(5) == "99999";
  }

  /** Go's answer for twenty nines followed by "x": ErrRange with the int64
      bound of the sign, not a syntax error. */
  lemma OverflowBeforeBadCharacter(sign: string)
    requires sign == "" || sign == "-"
    ensures ParseInt(sign + "99999999999999999999x") == RangeError(if sign == "-" then MinInt64 else MaxInt64)
  {
    var nines := "99999999999999999999";
    TwentyNines();
    ParseIntStopsAtNonDigit(sign, nines, 'x', "");
    assert sign + nines + ['x'] + "" == sign + "99999999999999999999x";
  }

  /** An unsigned run of digits whose value fits int64 parses to that value. */
  lemma ParseUnsigned(s: string, n: int)
    requires s != [] && AllDigits(s) && DecimalValue(s) == n <= MaxInt64
    ensures ParseInt(s) == Parsed(n)
  {
    assert IsDigit(s[0]);
    ParseIntDigits(s, s);
  }

  /** A minus sign before digits whose negated value fits int64 parses to
      that negative value. */
  lemma ParseNegated(s: string, body: string, n: int)
    requires s == "-" + body && body != [] && AllDigits(body)
    requires MinInt64 <= n && DecimalValue(body) == -n
    ensures ParseInt(s) == Parsed(n)
  {
    assert s[0] == '-' && s[1..] == body;
    ParseIntDigits(s, body);
  }

  /** Whatever int64 Itoa renders, ParseInt reads back. */
  lemma ParseItoa(n: int)
    requires MinInt64 <= n <= MaxInt64
    ensures ParseInt(Itoa(n)) == Parsed(n)
  {
    assert Itoa(n) == ZeroPad(n, 0);
    ZeroPadParses(n, 0);
  }

  /** strings.ToUpper(strconv.FormatInt(n, 16)) for n >= 0. */
  function UpperHex(n: nat): (s: string)
    ensures 1 <= |s|
    decreases n
  {
    if n < 16 then [HexChar(n)] else UpperHex(n / 16) + [HexChar(n % 16)]
  }

  const HexDigits: string := "0123456789ABCDEF"

  function HexChar(d: nat): (c: char)
    requires d < 16
  {
    HexDigits[d]
  }

  /** The digit value of an upper-case hexadecimal digit, if c is one. */
  function HexValueOf(c: char): (r: Option<nat>)
    ensures r.Some? ==> r.value < 16 && HexChar(r.value) == c
  {
    if '0' <= c <= '9' then Some(c as int - '0' as int)
    else if 'A' <= c <= 'F' then Some(c as int - 'A' as int + 10)
    else None
  }

  /** Reading a string of upper-case hexadecimal digits back as a number. */
  function HexValue(s: string): Option<nat>
  {
    if s == [] then Some(0)
    else match (HexValue(s[..|s| - 1]), HexValueOf(s[|s| - 1]))
      case (Some(v), Some(d)) => Some(v * 16 + d)
      case _ => None
  }

  lemma HexCharValue(d: nat)
    requires d < 16
    ensures HexValueOf(HexChar(d)) == Some(d)
  {
    if d < 10 {
      assert HexChar(d) as int == '0' as int + d;
    } else {
      assert HexChar(d) as int == 'A' as int + d - 10;
    }
  }

  lemma {:induction false} HexRoundTrip(n: nat)
    ensures HexValue(UpperHex(n)) == Some(n)
  {
    var s := UpperHex(n);
    if n < 16 {
      assert s[..|s| - 1] == [];
      HexCharValue(n);
    } else {
      HexRoundTrip(n / 16);
      assert s[..|s| - 1] == UpperHex(n / 16);
      HexCharValue(n % 16);
    }
  }

  function Zeros(k: nat): (s: string)
    ensures |s| == k && forall i :: 0 <= i < k ==> s[i] == '0'
  {
    if k == 0 then "" else "0" + Zeros(k - 1)
  }

  function Spaces(k: nat): (s: string)
    ensures |s| == k && forall i :: 0 <= i < k ==> s[i] == ' '
  {
    if k == 0 then "" else " " + Spaces(k - 1)
  }

  function PadLeft(s: string, width: nat): string
  {
    if |s| >= width then s else Zeros(width - |s|) + s
  }

  /** fmt.Sprintf("%0" + strconv.Itoa(width) + "d", n). A positive width asks
      for at least that many characters, zeros going after the sign; a width
      of 0 reads as "%00d", a repeated zero flag and no width, so no padding;
      a negative width reads as the flags "0-", and '-' overrides '0': the
      number is padded on the right with spaces. */
  function ZeroPad(n: int, width: int): string
  {
    if width < 0 then
      var d := Itoa(n);
      if |d| >= -width then d else d + Spaces(-width - |d|)
    else if n < 0 then "-" + PadLeft(NatToDecimal(-n), if width == 0 then 0 else width - 1)
    else PadLeft(NatToDecimal(n), width)
  }

  lemma {:induction false} LeadingZeros(k: nat, s: string)
    requires AllDigits(s)
    ensures AllDigits(Zeros(k) + s) && DecimalValue(Zeros(k) + s) == DecimalValue(s)
  {
    if s == [] {
      assert Zeros(k) + s == Zeros(k);
      ZerosValue(k);
    } else {
      var t := Zeros(k) + s;
      assert t[..|t| - 1] == Zeros(k) + s[..|s| - 1];
      LeadingZeros(k, s[..|s| - 1]);
    }
  }

  lemma {:induction false} ZerosValue(k: nat)
    ensures AllDigits(Zeros(k)) && DecimalValue(Zeros(k)) == 0
  {
    if k > 0 {
      var z := Zeros(k);
      assert z[..k - 1] == Zeros(k - 1);
      ZerosValue(k - 1);
    }
  }

  /** A zero-padded non-negative number has the requested width (or its own,
      if longer) and reads back as the number. */
  lemma ZeroPadReadsBack(n: nat, width: nat)
    ensures |ZeroPad(n, width)| == Max(width, |NatToDecimal(n)|)
    ensures AllDigits(ZeroPad(n, width)) && DecimalValue(ZeroPad(n, width)) == n
  {
    DecimalRoundTrip(n);
    var d := NatToDecimal(n);
    assert ZeroPad(n, width) == PadLeft(d, width);
    if |d| < width {
      LeadingZeros(width - |d|, d);
    }
  }

  /** A zero-padded number of any sign reads back through ParseInt, so
      different numbers never share a padded rendering. */
  lemma ZeroPadParses(n: int, width: nat)
    requires MinInt64 <= n <= MaxInt64
    ensures ParseInt(ZeroPad(n, width)) == Parsed(n)
  {
    if n >= 0 {
      ZeroPadReadsBack(n, width);
      ParseUnsigned(ZeroPad(n, width), n);
    } else {
      var w: nat := if width == 0 then 0 else width - 1;
      ZeroPadReadsBack(-n, w);
      ParseNegated(ZeroPad(n, width), ZeroPad(-n, w), n);
    }
  }

  // ---------------------------------------------------------------------
  // strings.Split and its inverse strings.Join

  /** s starts with p. */
  predicate HasPrefix(s: string, p: string) { |p| <= |s| && s[..|p|] == p }

  /** strings.Split(s, sep): the pieces between the non-overlapping, leftmost
      occurrences of sep; an empty sep splits into single characters (and an
      empty s into no pieces at all). */
  function Split(s: string, sep: string): seq<string>
  {
    if sep == [] then Explode(s) else SplitFrom(s, sep, "")
  }

  function Explode(s: string): (parts: seq<string>)
    ensures |parts| == |s|
  {
    seq(|s|, i requires 0 <= i < |s| => [s[i]])
  }

  /** Splitting the rest `s` of a string whose current piece so far is `cur`. */
  function SplitFrom(s: string, sep: string, cur: string): (parts: seq<string>)
    requires sep != []
    ensures |parts| >= 1
    decreases |s|
  {
    if |s| < |sep| then [cur + s]
    else if s[..|sep|] == sep then [cur] + SplitFrom(s[|sep|..], sep, "")
    else SplitFrom(s[1..], sep, cur + [s[0]])
  }

  /** strings.Join(parts, sep). */
  function Join(parts: seq<string>, sep: string): string
  {
    if parts == [] then "" else if |parts| == 1 then parts[0] else parts[0] + sep + Join(parts[1..], sep)
  }

  lemma {:induction false} SplitFromJoin(s: string, sep: string, cur: string)
    requires sep != []
    ensures Join(SplitFrom(s, sep, cur), sep) == cur + s
    decreases |s|
  {
    if |s| < |sep| {
    } else if s[..|sep|] == sep {
      SplitFromJoin(s[|sep|..], sep, "");
      assert s == sep + s[|sep|..];
    } else {
      SplitFromJoin(s[1..], sep, cur + [s[0]]);
      assert cur + [s[0]] + s[1..] == cur + s;
    }
  }

  /** Joining the pieces of a split with the same separator restores the line. */
  lemma SplitJoin(s: string, sep: string)
    requires sep != []
    ensures |Split(s, sep)| >= 1
    ensures Join(Split(s, sep), sep) == s
  {
    SplitFromJoin(s, sep, "");
  }

  /** With a non-empty separator a line splits into exactly one empty column
      if and only if the line is empty. */
  lemma SplitEmptyLine(s: string, sep: string)
    requires sep != []
    ensures Split(s, sep) == [""] <==> s == ""
  {
    SplitJoin(s, sep);
  }

  // ---------------------------------------------------------------------
  // path/filepath.Join, without Clean

  function NonEmpty(elems: seq<string>): (r: seq<string>)
    ensures forall i :: 0 <= i < |r| ==> r[i] != ""
  {
    if elems == [] then []
    else if elems[0] == "" then NonEmpty(elems[1..])
    else [elems[0]] + NonEmpty(elems[1..])
  }

  /** filepath.Join(elems...): the non-empty elements joined with "/". */
  function JoinPath(elems: seq<string>): string
  {
    Join(NonEmpty(elems), "/")
  }

  /** Two-element filepath.Join: an empty side disappears. */
  lemma JoinPath2(a: string, b: string)
    ensures JoinPath([a, b]) == if a == "" then b else if b == "" then a else a + "/" + b
  {
    assert [a, b][1..] == [b];
    assert [b][1..] == [];
    if a == "" {
      assert NonEmpty([a, b]) == NonEmpty([b]);
    } else {
      assert NonEmpty([a, b]) == [a] + NonEmpty([b]);
      if b == "" {
        assert NonEmpty([b]) == [];
      } else {
        assert NonEmpty([b]) == [b];
        assert [a] + [b] == [a, b];
        assert Join([a, b], "/") == a + "/" + Join([b], "/");
      }
    }
  }

  lemma JoinPath3(a: string, b: string, c: string)
    ensures JoinPath([a, b, c]) == JoinPath([JoinPath([a, b]), c])
  {
    assert [a, b, c][1..] == [b, c];
    assert [b, c][1..] == [c];
    assert [c][1..] == [];
    JoinPath2(a, b);
    JoinPath2(b, c);
    JoinPath2(JoinPath([a, b]), c);
    if a == "" {
      assert NonEmpty([a, b, c]) == NonEmpty([b, c]);
    } else {
      assert NonEmpty([a, b, c]) == [a] + NonEmpty([b, c]);
      if b == "" {
        assert NonEmpty([b, c]) == NonEmpty([c]);
        assert NonEmpty([a, c]) == [a] + NonEmpty([c]);
        JoinPath2(a, c);
        assert [a, c][1..] == [c];
      } else {
        assert NonEmpty([b, c]) == [b] + NonEmpty([c]);
        assert a + "/" + (b + "/" + c) == (a + "/" + b) + "/" + c;
      }
    }
  }
}
