/**
 exactJSONInteger of internal/mcpserver/logs.go: the integer denoted by a JSON number literal,
 without rounding.  Literals follow the grammar of RFC 8259, section 6.
 */
module JsonInteger {
  import opened Wrappers

  datatype Error = Syntax | Range

  const INT64_LIMIT := 0x8000_0000_0000_0000
  const INT32_LIMIT := 0x8000_0000

  // ---------------------------------------------------------------------------------------
  // The grammar and its meaning

  predicate IsDigit(c: char) { '0' <= c <= '9' }

  predicate AllDigits(s: string) { forall i :: 0 <= i < |s| ==> IsDigit(s[i]) }

  predicate IsPoint(c: char) { c == '.' }

  predicate IsExpMark(c: char) { c == 'e' || c == 'E' }

  datatype Exponent = Exponent(mark: char, sign: Option<char>, digits: string)

  /** number = [ minus ] int [ frac ] [ exp ] */
  datatype Literal = Literal(negative: bool, whole: string, fraction: Option<string>, exp: Option<Exponent>)

  predicate WellFormed(l: Literal) {
    && |l.whole| > 0 && AllDigits(l.whole) && (l.whole[0] == '0' ==> |l.whole| == 1)
    && (l.fraction.Some? ==> |l.fraction.value| > 0 && AllDigits(l.fraction.value))
    && (l.exp.Some? ==>
          && IsExpMark(l.exp.value.mark)
          && (l.exp.value.sign.Some? ==> l.exp.value.sign.value in {'+', '-'})
          && |l.exp.value.digits| > 0 && AllDigits(l.exp.value.digits))
  }

  function FractionDigits(l: Literal): string {
    if l.fraction.Some? then l.fraction.value else ""
  }

  function Mantissa(l: Literal): string {
    l.whole + if l.fraction.Some? then ['.'] + l.fraction.value else ""
  }

  function ExponentText(e: Exponent): string {
    (if e.sign.Some? then [e.sign.value] else "") + e.digits
  }

  /** The text of a literal. */
  function Text(l: Literal): string {
    (if l.negative then ['-'] else "") + Mantissa(l)
    + if l.exp.Some? then [l.exp.value.mark] + ExponentText(l.exp.value) else ""
  }

  function Nat(s: string): (n: int)
    requires AllDigits(s)
    ensures n >= 0
  {
    if s == "" then 0 else 10 * Nat(s[..|s| - 1]) + (s[|s| - 1] as int - '0' as int)
  }

  function Pow10(n: nat): (p: nat)
    ensures p >= 1
  {
    if n == 0 then 1 else 10 * Pow10(n - 1)
  }

  function SignedValue(e: Exponent): int
    requires AllDigits(e.digits)
  {
    if e.sign == Some('-') then -Nat(e.digits) else Nat(e.digits)
  }

  function ExponentValue(l: Literal): int
    requires WellFormed(l)
  {
    match l.exp
    case None => 0
    case Some(e) => SignedValue(e)
  }

  function SignedDigits(l: Literal): int
    requires WellFormed(l)
  {
    var n := Nat(l.whole + FractionDigits(l));
    if l.negative then -n else n
  }

  /** n * 10^k */
  function Shift(n: int, k: nat): int {
    if k == 0 then n else 10 * Shift(n, k - 1)
  }

  /** v == m * 10^e, as rational numbers. */
  predicate Equals(m: int, e: int, v: int) {
    if e >= 0 then v == Shift(m, e) else Shift(v, -e) == m
  }

  /** The literal's value is exactly the integer v. */
  predicate Denotes(l: Literal, v: int)
    requires WellFormed(l)
  {
    Equals(SignedDigits(l), ExponentValue(l) - |FractionDigits(l)|, v)
  }

  // ---------------------------------------------------------------------------------------
  // The code

  /** strings.IndexAny / strings.Cut: the first index whose character satisfies p, or |s|. */
  function FirstIndex(s: string, p: char -> bool): (i: nat)
    ensures i <= |s|
  {
    if s == "" || p(s[0]) then 0 else 1 + FirstIndex(s[1..], p)
  }

  function TrimLeftZeros(s: string): (r: string) {
    if s != "" && s[0] == '0' then TrimLeftZeros(s[1..]) else s
  }

  function TrimRightZeros(s: string): (r: string)
    ensures |r| <= |s| && r == s[..|r|]
  {
    if s != "" && s[|s| - 1] == '0' then TrimRightZeros(s[..|s| - 1]) else s
  }

  function Zeros(n: nat): (z: string)
    ensures |z| == n && AllDigits(z)
  {
    if n == 0 then "" else Zeros(n - 1) + ['0']
  }

  /** strconv.ParseInt in base 10; `limit` is 2^(bitSize-1). */
  function ParseInt(s: string, limit: nat): Result<int, Error> {
    var negative := s != "" && s[0] == '-';
    var digits := if s != "" && (s[0] == '-' || s[0] == '+') then s[1..] else s;
    if digits == "" || !AllDigits(digits) then Err(Syntax)
    else if negative then if Nat(digits) > limit then Err(Range) else Ok(-Nat(digits))
    else if Nat(digits) >= limit then Err(Range) else Ok(Nat(digits))
  }

  /** The integer text that exactJSONInteger hands to ParseInt, or its early result. */
  datatype Normal = Early(result: Result<int, Error>) | Digits(scale: int, text: string)

  /** The sign, the digits before and after the point, and the exponent's text. */
  datatype Pieces = Pieces(negative: bool, whole: string, fraction: string, exponentText: string)

  function CutExponent(number: string): (string, string) {
    var index := FirstIndex(number, IsExpMark);
    (number[..index], if index < |number| then number[index + 1..] else "0")
  }

  function CutPoint(mantissa: string): (string, string) {
    var point := FirstIndex(mantissa, IsPoint);
    (mantissa[..point], if point < |mantissa| then mantissa[point + 1..] else "")
  }

  function Cut(number: string): Pieces {
    var (signed, exponentText) := CutExponent(number);
    var negative := signed != "" && signed[0] == '-';
    var (whole, fraction) := CutPoint(if negative then signed[1..] else signed);
    Pieces(negative, whole, fraction, exponentText)
  }

  /** The digits without outer zeros, scaled by a power of ten. */
  function Build(negative: bool, trimmed: string, scale: int): Normal {
    if scale < 0 then Early(Err(Syntax))
    else if |trimmed| + scale > 19 then Early(Err(Range))
    else Digits(scale, (if negative then ['-'] else "") + (trimmed + Zeros(scale)))
  }

  function Normalize(p: Pieces): Normal {
    var digits := TrimLeftZeros(p.whole + p.fraction);
    if digits == "" then Early(Ok(0))
    else
      match ParseInt(p.exponentText, INT32_LIMIT)
      case Err(e) => Early(Err(e))
      case Ok(exponent) =>
        var trimmed := TrimRightZeros(digits);
        Build(p.negative, trimmed, exponent - |p.fraction| + (|digits| - |trimmed|))
  }

  function Parse(n: Normal): Result<int, Error> {
    match n
    case Early(result) => result
    case Digits(_, text) => ParseInt(text, INT64_LIMIT)
  }

  function ExactJSONInteger(number: string): Result<int, Error> {
    Parse(Normalize(Cut(number)))
  }

  // ---------------------------------------------------------------------------------------
  // Scanning a literal

  lemma {:induction false} FirstIndexSkips(a: string, b: string, p: char -> bool)
    requires forall i :: 0 <= i < |a| ==> !p(a[i])
    requires b == "" || p(b[0])
    ensures FirstIndex(a + b, p) == |a|
  {
    if a == "" {
      assert a + b == b;
    } else {
      assert (a + b)[1..] == a[1..] + b;
      FirstIndexSkips(a[1..], b, p);
    }
  }

  function Signed(l: Literal): string {
    (if l.negative then ['-'] else "") + Mantissa(l)
  }

  function LiteralExponentText(l: Literal): string {
    if l.exp.Some? then ExponentText(l.exp.value) else "0"
  }

  lemma TextScans(l: Literal)
    requires WellFormed(l)
    ensures CutExponent(Text(l)) == (Signed(l), LiteralExponentText(l))
  {
    var rest := if l.exp.Some? then [l.exp.value.mark] + ExponentText(l.exp.value) else "";
    assert Text(l) == Signed(l) + rest;
    FirstIndexSkips(Signed(l), rest, IsExpMark);
    assert Text(l)[..|Signed(l)|] == Signed(l);
    if l.exp.Some? {
      assert Text(l)[|Signed(l)| + 1..] == ExponentText(l.exp.value);
    }
  }

  lemma SignScans(l: Literal)
    requires WellFormed(l)
    ensures var signed := Signed(l);
            && signed != "" && (signed[0] == '-' <==> l.negative)
            && (if l.negative then signed[1..] else signed) == Mantissa(l)
  {
    if l.negative {
      assert Signed(l)[1..] == Mantissa(l);
    } else {
      assert Signed(l) == Mantissa(l);
    }
  }

  lemma MantissaScans(l: Literal)
    requires WellFormed(l)
    ensures CutPoint(Mantissa(l)) == (l.whole, FractionDigits(l))
  {
    var rest := if l.fraction.Some? then ['.'] + l.fraction.value else "";
    FirstIndexSkips(l.whole, rest, IsPoint);
    assert Mantissa(l)[..|l.whole|] == l.whole;
    if l.fraction.Some? {
      assert Mantissa(l)[|l.whole| + 1..] == l.fraction.value;
    }
  }

  // ---------------------------------------------------------------------------------------
  // Digits

  lemma {:induction false} NatLeadingZero(s: string)
    requires AllDigits(s) && s != "" && s[0] == '0'
    ensures Nat(s) == Nat(s[1..])
  {
    if |s| > 1 {
      NatLeadingZero(s[..|s| - 1]);
      assert s[..|s| - 1][1..] == s[1..][..|s| - 2];
    }
  }

  lemma {:induction false} NatTrimLeft(s: string)
    requires AllDigits(s)
    ensures var t := TrimLeftZeros(s);
            AllDigits(t) && Nat(t) == Nat(s) && |t| <= |s| && (t != "" ==> t[0] != '0')
  {
    if s != "" && s[0] == '0' {
      NatTrimLeft(s[1..]);
      NatLeadingZero(s);
    }
  }

  lemma {:induction false} NatTrimRight(s: string)
    requires AllDigits(s)
    ensures var t := TrimRightZeros(s);
            && AllDigits(t) && Nat(s) == Shift(Nat(t), |s| - |t|)
            && (t != "" ==> t[|t| - 1] != '0')
            && (s != "" && s[0] != '0' ==> t != "" && t[0] == s[0])
  {
    if s != "" && s[|s| - 1] == '0' {
      var u := s[..|s| - 1];
      NatTrimRight(u);
    }
  }

  lemma ZerosLast(s: string, n: nat)
    requires n > 0 && AllDigits(s)
    ensures var t := s + Zeros(n);
            t != "" && AllDigits(t) && t[..|t| - 1] == s + Zeros(n - 1) && t[|t| - 1] == '0'
  {
  }

  lemma {:induction false} NatAppendZeros(s: string, n: nat)
    requires AllDigits(s)
    ensures Nat(s + Zeros(n)) == Shift(Nat(s), n)
  {
    if n == 0 {
      assert s + Zeros(0) == s;
    } else {
      NatAppendZeros(s, n - 1);
      ZerosLast(s, n);
    }
  }

  /** A number without leading zero has as many digits as its size says. */
  lemma {:induction false} NatBounds(s: string)
    requires AllDigits(s) && s != "" && s[0] != '0'
    ensures Shift(1, |s| - 1) <= Nat(s) < Shift(1, |s|)
  {
    if |s| > 1 {
      NatBounds(s[..|s| - 1]);
    } else {
      assert s[..0] == "";
      assert Shift(1, 1) == 10 * Shift(1, 0);
    }
  }

  // ---------------------------------------------------------------------------------------
  // Scale

  /** What Shift and Equals mean in terms of powers of ten. */
  lemma {:induction false} ShiftIsProduct(n: int, k: nat)
    ensures Shift(n, k) == n * Pow10(k)
  {
    if k > 0 {
      ShiftIsProduct(n, k - 1);
      assert n * (10 * Pow10(k - 1)) == 10 * (n * Pow10(k - 1));
    }
  }

  lemma EqualsIsProduct(m: int, e: int, v: int)
    ensures Equals(m, e, v) <==> if e >= 0 then v == m * Pow10(e) else v * Pow10(-e) == m
  {
    if e >= 0 { ShiftIsProduct(m, e); } else { ShiftIsProduct(v, -e); }
  }

  lemma {:induction false} ShiftTen(n: int, k: nat)
    ensures Shift(10 * n, k) == 10 * Shift(n, k)
  {
    if k > 0 { ShiftTen(n, k - 1); }
  }

  lemma {:induction false} ShiftNegated(n: int, k: nat)
    ensures Shift(-n, k) == -Shift(n, k)
  {
    if k > 0 { ShiftNegated(n, k - 1); }
  }

  lemma {:induction false} ShiftAdd(n: int, a: nat, b: nat)
    ensures Shift(Shift(n, a), b) == Shift(n, a + b)
  {
    if b > 0 { ShiftAdd(n, a, b - 1); }
  }

  lemma {:induction false} ShiftMonotone(n: int, m: int, k: nat)
    requires n >= m
    ensures Shift(n, k) >= Shift(m, k)
  {
    if k > 0 { ShiftMonotone(n, m, k - 1); }
  }

  lemma {:induction false} ShiftGrows(n: int, a: nat, b: nat)
    requires n >= 0 && a <= b
    ensures 0 <= Shift(n, a) <= Shift(n, b)
  {
    if b > 0 { ShiftGrows(n, if a > 0 then a - 1 else 0, b - 1); }
  }

  /** A factor of ten moves between the digits and the exponent. */
  lemma RescaleOnce(m: int, e: int, v: int)
    ensures Equals(10 * m, e, v) <==> Equals(m, e + 1, v)
  {
    if e >= 0 { ShiftTen(m, e); }
  }

  lemma {:induction false} Rescale(m: int, z: nat, e: int, v: int)
    ensures Equals(Shift(m, z), e, v) <==> Equals(m, e + z, v)
  {
    if z > 0 {
      Rescale(m, z - 1, e + 1, v);
      RescaleOnce(Shift(m, z - 1), e, v);
    }
  }

  /** Without a factor of ten in the digits, a negative exponent leaves a fraction. */
  lemma NegativeScaleIsFractional(m: int, e: int, v: int)
    requires e < 0 && m % 10 != 0
    ensures !Equals(m, e, v)
  {
  }

  lemma Shift19()
    ensures Shift(1, 19) == 10_000_000_000_000_000_000
  {
    assert Shift(1, 5) == 100_000;
    assert Shift(Shift(1, 5), 5) == 10_000_000_000;
    ShiftAdd(1, 5, 5);
    assert Shift(Shift(1, 10), 5) == 1_000_000_000_000_000;
    ShiftAdd(1, 10, 5);
    assert Shift(Shift(1, 15), 4) == 10_000_000_000_000_000_000;
    ShiftAdd(1, 15, 4);
  }

  /** Twenty digits are out of range. */
  lemma LongIsOutOfRange(n: int, len: nat, e: nat, v: int)
    requires len >= 1 && n >= Shift(1, len - 1) && len + e > 19
    requires Equals(n, e, v) || Equals(-n, e, v)
    ensures !(-INT64_LIMIT <= v < INT64_LIMIT)
  {
    ShiftMonotone(n, Shift(1, len - 1), e);
    ShiftAdd(1, len - 1, e);
    ShiftGrows(1, 19, len - 1 + e);
    Shift19();
    ShiftNegated(n, e);
  }

  // ---------------------------------------------------------------------------------------
  // The result

  lemma LastDigit(s: string)
    requires AllDigits(s) && s != "" && s[|s| - 1] != '0'
    ensures Nat(s) % 10 != 0
  {
  }

  /** Trimming zeros on both sides keeps the number up to a power of ten. */
  lemma Trimmed(all: string) returns (digits: string, trimmed: string)
    requires AllDigits(all)
    ensures digits == TrimLeftZeros(all) && trimmed == TrimRightZeros(digits)
    ensures AllDigits(digits) && AllDigits(trimmed) && |trimmed| <= |digits|
    ensures Nat(all) == Shift(Nat(trimmed), |digits| - |trimmed|)
    ensures digits == "" ==> Nat(all) == 0
    ensures digits != "" ==> trimmed != "" && trimmed[0] != '0' && Nat(trimmed) % 10 != 0
                             && Shift(1, |trimmed| - 1) <= Nat(trimmed)
  {
    NatTrimLeft(all);
    digits := TrimLeftZeros(all);
    NatTrimRight(digits);
    trimmed := TrimRightZeros(digits);
    if digits != "" {
      NatBounds(trimmed);
      LastDigit(trimmed);
    }
  }

  lemma {:induction false} ShiftZero(n: int, k: nat)
    ensures Shift(n, k) == 0 <==> n == 0
  {
    if k > 0 { ShiftZero(n, k - 1); }
  }

  lemma ZeroIsZero(e: int, v: int)
    ensures Equals(0, e, v) <==> v == 0
  {
    if e >= 0 { ShiftZero(0, e); } else { ShiftZero(v, -e); }
  }

  lemma DenotesIs(l: Literal, n: int, v: int)
    requires WellFormed(l) && n == Nat(l.whole + FractionDigits(l))
    ensures Denotes(l, v) <==> Equals(if l.negative then -n else n, ExponentValue(l) - |FractionDigits(l)|, v)
  {
  }

  lemma DenotesTrimmed(l: Literal, t: int, z: nat, v: int)
    requires WellFormed(l) && Nat(l.whole + FractionDigits(l)) == Shift(t, z)
    ensures Denotes(l, v)
        <==> Equals(if l.negative then -t else t, ExponentValue(l) - |FractionDigits(l)| + z, v)
  {
    DenotesIs(l, Shift(t, z), v);
    ShiftNegated(t, z);
    Rescale(if l.negative then -t else t, z, ExponentValue(l) - |FractionDigits(l)|, v);
  }

  lemma DenotesZero(l: Literal, v: int)
    requires WellFormed(l) && Nat(l.whole + FractionDigits(l)) == 0
    ensures Denotes(l, v) <==> v == 0
  {
    DenotesIs(l, 0, v);
    ZeroIsZero(ExponentValue(l) - |FractionDigits(l)|, v);
  }

  /** The literal's value in terms of the trimmed digits. */
  lemma Scaled(l: Literal, v: int) returns (trimmed: string, t: int, scale: int)
    requires WellFormed(l)
    ensures var digits := TrimLeftZeros(l.whole + FractionDigits(l));
            && trimmed == TrimRightZeros(digits) && AllDigits(trimmed) && t == Nat(trimmed)
            && scale == ExponentValue(l) - |FractionDigits(l)| + (|digits| - |trimmed|)
            && (digits == "" ==> (Denotes(l, v) <==> v == 0))
            && (digits != "" ==>
                  && trimmed != "" && t % 10 != 0 && Shift(1, |trimmed| - 1) <= t
                  && (Denotes(l, v) <==> Equals(if l.negative then -t else t, scale, v)))
  {
    var digits;
    digits, trimmed := Trimmed(l.whole + FractionDigits(l));
    t, scale := Nat(trimmed), ExponentValue(l) - |FractionDigits(l)| + (|digits| - |trimmed|);
    if digits == "" {
      DenotesZero(l, v);
    } else {
      DenotesTrimmed(l, t, |digits| - |trimmed|, v);
    }
  }

  predicate InInt64(v: int) { -INT64_LIMIT <= v < INT64_LIMIT }

  lemma PlainParses(digits: string, limit: nat)
    requires AllDigits(digits) && digits != ""
    ensures ParseInt(digits, limit) == if Nat(digits) >= limit then Err(Range) else Ok(Nat(digits))
  {
  }

  lemma MarkedParses(sign: char, digits: string, limit: nat)
    requires sign in {'+', '-'} && AllDigits(digits) && digits != ""
    ensures ParseInt([sign] + digits, limit)
            == if sign == '-' then if Nat(digits) > limit then Err(Range) else Ok(-Nat(digits))
               else if Nat(digits) >= limit then Err(Range) else Ok(Nat(digits))
  {
    assert ([sign] + digits)[1..] == digits;
  }

  lemma ExponentTextParses(e: Exponent)
    requires (e.sign.Some? ==> e.sign.value in {'+', '-'}) && e.digits != "" && AllDigits(e.digits)
    ensures var v := SignedValue(e);
            ParseInt(ExponentText(e), INT32_LIMIT) == if -INT32_LIMIT <= v < INT32_LIMIT then Ok(v) else Err(Range)
  {
    if e.sign.Some? {
      MarkedParses(e.sign.value, e.digits, INT32_LIMIT);
    } else {
      assert ExponentText(e) == e.digits;
      PlainParses(e.digits, INT32_LIMIT);
    }
  }

  lemma ZeroParses()
    ensures ParseInt("0", INT32_LIMIT) == Ok(0)
  {
    assert Nat("0") == 0;
  }

  lemma ExponentParses(l: Literal)
    requires WellFormed(l)
    ensures var e := ExponentValue(l);
            ParseInt(LiteralExponentText(l), INT32_LIMIT)
            == if -INT32_LIMIT <= e < INT32_LIMIT then Ok(e) else Err(Range)
  {
    if l.exp.Some? { ExponentTextParses(l.exp.value); } else { ZeroParses(); }
  }

  /** The pieces that the code cuts out of a literal's text are those of the literal. */
  lemma TextIsCut(l: Literal)
    requires WellFormed(l)
    ensures Cut(Text(l)) == Pieces(l.negative, l.whole, FractionDigits(l), LiteralExponentText(l))
  {
    TextScans(l);
    SignScans(l);
    MantissaScans(l);
  }

  lemma SignedParses(negative: bool, body: string, limit: nat)
    requires AllDigits(body) && body != ""
    ensures ParseInt((if negative then ['-'] else "") + body, limit)
            == if negative then if Nat(body) > limit then Err(Range) else Ok(-Nat(body))
               else if Nat(body) >= limit then Err(Range) else Ok(Nat(body))
  {
    if negative {
      MarkedParses('-', body, limit);
    } else {
      assert "" + body == body;
      PlainParses(body, limit);
    }
  }

  /** The text that Build yields is the sign and the digits of t * 10^scale. */
  lemma BuildParses(negative: bool, trimmed: string, t: int, scale: nat) returns (body: string)
    requires AllDigits(trimmed) && trimmed != "" && |trimmed| + scale <= 19 && t == Nat(trimmed)
    ensures AllDigits(body) && body != "" && Nat(body) == Shift(t, scale)
    ensures Parse(Build(negative, trimmed, scale)) == ParseInt((if negative then ['-'] else "") + body, INT64_LIMIT)
  {
    body := trimmed + Zeros(scale);
    NatAppendZeros(trimmed, scale);
  }

  lemma EqualsSigned(negative: bool, t: int, k: nat, v: int)
    ensures Equals(if negative then -t else t, k, v) <==> v == if negative then -Shift(t, k) else Shift(t, k)
  {
    ShiftNegated(t, k);
  }

  /** The final ParseInt accepts its digits exactly if they are an int64. */
  lemma FinalParse(negative: bool, body: string, t: int, k: nat, v: int)
    requires AllDigits(body) && body != "" && Nat(body) == Shift(t, k)
    ensures ParseInt((if negative then ['-'] else "") + body, INT64_LIMIT) == Ok(v)
        <==> InInt64(v) && Equals(if negative then -t else t, k, v)
  {
    SignedParses(negative, body, INT64_LIMIT);
    EqualsSigned(negative, t, k, v);
  }

  lemma ShortIsExact(negative: bool, trimmed: string, t: int, scale: nat, v: int)
    requires AllDigits(trimmed) && trimmed != "" && |trimmed| + scale <= 19 && t == Nat(trimmed)
    ensures Parse(Build(negative, trimmed, scale)) == Ok(v)
        <==> InInt64(v) && Equals(if negative then -t else t, scale, v)
  {
    var body := BuildParses(negative, trimmed, t, scale);
    FinalParse(negative, body, t, scale, v);
  }

  /** No power of ten makes an int64 of a number with a fraction or with more than 19 digits. */
  lemma FractionalOrHuge(negative: bool, n: int, len: nat, scale: int, v: int)
    requires n % 10 != 0 && len >= 1 && n >= Shift(1, len - 1)
    requires scale < 0 || len + scale > 19
    ensures !(InInt64(v) && Equals(if negative then -n else n, scale, v))
  {
    if scale < 0 {
      NegativeScaleIsFractional(if negative then -n else n, scale, v);
    } else if Equals(if negative then -n else n, scale, v) {
      LongIsOutOfRange(n, len, scale, v);
    }
  }

  /** Building and parsing decides exactly whether the scaled digits are an int64. */
  lemma BuildIsExact(negative: bool, trimmed: string, t: int, scale: int, v: int)
    requires AllDigits(trimmed) && trimmed != "" && t == Nat(trimmed)
    requires t % 10 != 0 && Shift(1, |trimmed| - 1) <= t
    ensures Parse(Build(negative, trimmed, scale)) == Ok(v)
        <==> InInt64(v) && Equals(if negative then -t else t, scale, v)
  {
    if scale < 0 || |trimmed| + scale > 19 {
      FractionalOrHuge(negative, t, |trimmed|, scale, v);
    } else {
      ShortIsExact(negative, trimmed, t, scale, v);
    }
  }

  /** An exponent beyond int32 leaves no int64: the digits cannot make up for it. */
  lemma HugeExponent(l: Literal, trimmed: string, t: int, scale: int, v: int)
    requires trimmed != "" && t % 10 != 0 && Shift(1, |trimmed| - 1) <= t
    requires scale < 0 || scale > 19
    ensures !(InInt64(v) && Equals(if l.negative then -t else t, scale, v))
  {
    FractionalOrHuge(l.negative, t, |trimmed|, scale, v);
  }

  /** The pieces of a literal normalise to an early result or to trimmed digits. */
  lemma NormalizeIs(l: Literal, digits: string, trimmed: string, scale: int)
    requires WellFormed(l)
    requires digits == TrimLeftZeros(l.whole + FractionDigits(l)) && trimmed == TrimRightZeros(digits)
    requires scale == ExponentValue(l) - |FractionDigits(l)| + (|digits| - |trimmed|)
    ensures Normalize(Pieces(l.negative, l.whole, FractionDigits(l), LiteralExponentText(l)))
            == if digits == "" then Early(Ok(0))
               else if -INT32_LIMIT <= ExponentValue(l) < INT32_LIMIT then Build(l.negative, trimmed, scale)
               else Early(Err(Range))
  {
    ExponentParses(l);
  }

  lemma ResultIs(l: Literal, digits: string, trimmed: string, scale: int)
    requires WellFormed(l)
    requires digits == TrimLeftZeros(l.whole + FractionDigits(l)) && trimmed == TrimRightZeros(digits)
    requires scale == ExponentValue(l) - |FractionDigits(l)| + (|digits| - |trimmed|)
    ensures ExactJSONInteger(Text(l))
            == if digits == "" then Ok(0)
               else if -INT32_LIMIT <= ExponentValue(l) < INT32_LIMIT then Parse(Build(l.negative, trimmed, scale))
               else Err(Range)
  {
    TextIsCut(l);
    NormalizeIs(l, digits, trimmed, scale);
  }

  /**
   For every literal of the grammar, of any length below 2^30: the result is v exactly when the literal
   denotes v and v is an int64; so an error means exactly a fraction or a value out of range.
   */
  lemma ExactIffDenotes(l: Literal, v: int)
    requires WellFormed(l) && |Text(l)| < 0x4000_0000
    ensures ExactJSONInteger(Text(l)) == Ok(v) <==> InInt64(v) && Denotes(l, v)
  {
    var trimmed, t, scale := Scaled(l, v);
    var digits := TrimLeftZeros(l.whole + FractionDigits(l));
    ResultIs(l, digits, trimmed, scale);
    NatTrimLeft(l.whole + FractionDigits(l));
    if digits != "" {
      if -INT32_LIMIT <= ExponentValue(l) < INT32_LIMIT {
        BuildIsExact(l.negative, trimmed, t, scale, v);
      } else {
        HugeExponent(l, trimmed, t, scale, v);
      }
    }
  }

  /**
   On the way, the scale fits an int64 and the text built has at most 19 digits and a sign, so a huge
   exponent costs nothing.
   */
  lemma NothingLargeIsBuilt(l: Literal)
    requires WellFormed(l) && |Text(l)| < 0x4000_0000
    ensures var n := Normalize(Cut(Text(l))); n.Digits? ==> 0 <= n.scale <= 19 && |n.text| <= 20
    ensures var digits := TrimLeftZeros(l.whole + FractionDigits(l)); var e := ExponentValue(l);
            -INT32_LIMIT <= e < INT32_LIMIT ==>
              InInt64(e - |FractionDigits(l)|)
              && InInt64(e - |FractionDigits(l)| + (|digits| - |TrimRightZeros(digits)|))
  {
    TextIsCut(l);
    NatTrimLeft(l.whole + FractionDigits(l));
  }
}
