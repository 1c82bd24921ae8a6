/** The parts of Go's standard library whose exact behaviour shows through
    the client: decimal rendering (strconv.Itoa and the %d verb), decimal
    parsing (strconv.Atoi on a 64-bit platform), strings.Join, and the
    Get/Add/Set operations of net/http's Header map. */
module GoLib {

  const MaxInt64: int := 0x7fff_ffff_ffff_ffff
  const MinInt64: int := -0x8000_0000_0000_0000
  const MaxUint64: int := 0xffff_ffff_ffff_ffff

  /** strconv's overflow cutoff for base 10: an accumulator at or above it
      no longer fits in 64 bits once multiplied by 10. */
  const Cutoff10: int := MaxUint64 / 10 + 1

  // ---------------------------------------------------------------------
  // Digits

  predicate IsDigit(c: char) { '0' <= c <= '9' }

  predicate AllDigits(s: string) { forall i :: 0 <= i < |s| ==> IsDigit(s[i]) }

  function DigitValue(c: char): nat
    requires IsDigit(c)
  {
    c as int - '0' as int
  }

  function DigitChar(d: nat): (c: char)
    requires d < 10
    ensures IsDigit(c) && DigitValue(c) == d
  {
    ('0' as int + d) as char
  }

  function Pow10(k: nat): (p: nat)
    ensures p >= 1
  {
    if k == 0 then 1 else 10 * Pow10(k - 1)
  }

  lemma {:induction false} Pow10Add(i: nat, j: nat)
    ensures Pow10(i + j) == Pow10(i) * Pow10(j)
  {
    if i > 0 { Pow10Add(i - 1, j); }
  }

  lemma {:induction false} Pow10Monotone(i: nat, j: nat)
    requires i <= j
    ensures Pow10(i) <= Pow10(j)
  {
    if i < j { Pow10Monotone(i, j - 1); }
  }

  /** The number the digit string s denotes when read after the digits
      already worth acc: the arithmetic meaning of a decimal numeral. */
  function ValueFrom(s: string, acc: nat): nat
    requires AllDigits(s)
  {
    if s == [] then acc else ValueFrom(s[1..], acc * 10 + DigitValue(s[0]))
  }

  function Value(s: string): nat
    requires AllDigits(s)
  {
    ValueFrom(s, 0)
  }

  lemma {:induction false} ValueFromAppend(p: string, q: string, acc: nat)
    requires AllDigits(p) && AllDigits(q)
    ensures AllDigits(p + q) && ValueFrom(p + q, acc) == ValueFrom(q, ValueFrom(p, acc))
  {
    assert AllDigits(p + q) by {
      forall i | 0 <= i < |p + q| ensures IsDigit((p + q)[i]) {
        if i < |p| { assert (p + q)[i] == p[i]; } else { assert (p + q)[i] == q[i - |p|]; }
      }
    }
    if p != [] {
      assert (p + q)[0] == p[0] && (p + q)[1..] == p[1..] + q;
      ValueFromAppend(p[1..], q, acc * 10 + DigitValue(p[0]));
    } else {
      assert p + q == q;
    }
  }

  lemma {:induction false} ValueFromGrows(s: string, acc: nat)
    requires AllDigits(s)
    ensures ValueFrom(s, acc) >= acc
  {
    if s != [] { ValueFromGrows(s[1..], acc * 10 + DigitValue(s[0])); }
  }

  // ---------------------------------------------------------------------
  // strconv.Itoa, fmt's %d

  /** The decimal digits of n, most significant first, with no leading zero. */
  function Digits(n: nat): (s: string)
    ensures |s| > 0 && AllDigits(s)
    ensures s[0] == '0' <==> n == 0
    decreases n
  {
    if n < 10 then [DigitChar(n)] else Digits(n / 10) + [DigitChar(n % 10)]
  }

  lemma {:induction false} ValueOfDigits(n: nat)
    ensures Value(Digits(n)) == n
    decreases n
  {
    if n < 10 {
      var s := Digits(n);
      assert s == [DigitChar(n)] && s[1..] == [];
      assert ValueFrom(s, 0) == ValueFrom([], DigitValue(s[0]));
    } else {
      ValueOfDigits(n / 10);
      var d := [DigitChar(n % 10)];
      ValueFromAppend(Digits(n / 10), d, 0);
      assert d[1..] == [];
      assert ValueFrom(d, n / 10) == ValueFrom([], n / 10 * 10 + n % 10);
    }
  }

  /** strconv.Itoa(n), also what fmt prints for %d and %v of an int: an
      optional minus sign followed by the digits of |n|. */
  function Itoa(n: int): (s: string)
    ensures |s| > 0 && '/' !in s
    ensures n >= 0 ==> AllDigits(s) && Value(s) == n
    ensures n < 0 ==> s[0] == '-' && AllDigits(s[1..]) && Value(s[1..]) == -n
    ensures n >= 0 ==> (s[0] == '0' <==> n == 0)
    ensures n < 0 ==> s[1] != '0'
  {
    if n < 0 then ValueOfDigits(-n); "-" + Digits(-n)
    else ValueOfDigits(n); Digits(n)
  }

  lemma ItoaInjective(a: int, b: int)
    requires Itoa(a) == Itoa(b)
    ensures a == b
  {
    if a < 0 && b < 0 {
      assert Itoa(a)[1..] == Itoa(b)[1..];
    } else if a < 0 || b < 0 {
      // one rendering starts with '-', the other with a digit
      assert false;
    }
  }

  // ---------------------------------------------------------------------
  // strconv.Atoi

  datatype NumError = NoError | ErrSyntax | ErrRange

  /** What strconv returns: the value (meaningful even beside an error:
      0 on a syntax error, the clamped bound on a range error) and the error. */
  datatype Parsed = Parsed(value: int, err: NumError)

  /** The digit loop of strconv.ParseUint in base 10 with 64-bit limits:
      a non-digit is a syntax error and the first overflow returns the
      maximum at once, whatever follows it. */
  function ScanDigits(s: string, n: nat): (r: Parsed)
    requires n <= MaxUint64
    ensures 0 <= r.value <= MaxUint64
    ensures r.err == ErrSyntax ==> r.value == 0
    ensures r.err == ErrRange ==> r.value == MaxUint64
    decreases |s|
  {
    if s == [] then Parsed(n, NoError)
    else if !IsDigit(s[0]) then Parsed(0, ErrSyntax)
    else if n >= Cutoff10 then Parsed(MaxUint64, ErrRange)
    else
      var n1 := n * 10 + DigitValue(s[0]);
      if n1 > MaxUint64 then Parsed(MaxUint64, ErrRange) else ScanDigits(s[1..], n1)
  }

  function ParseUint(s: string): (r: Parsed)
    ensures 0 <= r.value <= MaxUint64
  {
    if s == [] then Parsed(0, ErrSyntax) else ScanDigits(s, 0)
  }

  /** The digits after an optional leading sign. */
  function StripSign(s: string): string
  {
    if |s| > 0 && (s[0] == '+' || s[0] == '-') then s[1..] else s
  }

  /** strconv.Atoi on a 64-bit platform, which behaves as
      strconv.ParseInt(s, 10, 64) (its fast path for strings shorter than 19
      bytes returns the same results). */
  function Atoi(s: string): (r: Parsed)
    ensures MinInt64 <= r.value <= MaxInt64
    ensures r.err == ErrSyntax ==> r.value == 0
  {
    if s == [] then Parsed(0, ErrSyntax)
    else
      var neg := s[0] == '-';
      var u := ParseUint(StripSign(s));
      if u.err == ErrSyntax then Parsed(0, ErrSyntax)
      else if !neg && u.value > MaxInt64 then Parsed(MaxInt64, ErrRange)
      else if neg && u.value > -MinInt64 then Parsed(MinInt64, ErrRange)
      else Parsed(if neg then -u.value else u.value, NoError)
  }

  /** A well-formed decimal numeral: an optional sign and at least one digit. */
  predicate IsDecimal(s: string)
  {
    |StripSign(s)| > 0 && AllDigits(StripSign(s))
  }

  /** The integer a well-formed decimal numeral denotes, unbounded. */
  function SignedValue(s: string): int
    requires IsDecimal(s)
  {
    if s[0] == '-' then 0 - Value(StripSign(s)) else Value(StripSign(s))
  }

  function Clamp64(v: int): int
  {
    if v > MaxInt64 then MaxInt64 else if v < MinInt64 then MinInt64 else v
  }

  /** On digit strings the scan is exact until it overflows, and reports the
      overflow exactly when the numeral does not fit in 64 bits. */
  lemma {:induction false} ScanDigitsExact(s: string, n: nat)
    requires n <= MaxUint64 && AllDigits(s)
    ensures ValueFrom(s, n) <= MaxUint64 ==> ScanDigits(s, n) == Parsed(ValueFrom(s, n), NoError)
    ensures ValueFrom(s, n) > MaxUint64 ==> ScanDigits(s, n) == Parsed(MaxUint64, ErrRange)
    decreases |s|
  {
    if s != [] {
      var n1 := n * 10 + DigitValue(s[0]);
      ValueFromGrows(s[1..], n1);
      if n < Cutoff10 && n1 <= MaxUint64 {
        ScanDigitsExact(s[1..], n1);
      }
    }
  }

  lemma MulMonotone(a: nat, b: nat, c: nat)
    requires a <= b
    ensures a * c <= b * c
  {
  }

  /** A scan that cannot overflow on the digits it has left stops at the
      first non-digit with a syntax error. */
  lemma {:induction false} ScanDigitsSyntax(s: string, n: nat)
    requires !AllDigits(s)
    requires (n + 1) * Pow10(|s|) <= Cutoff10
    ensures n <= MaxUint64 && ScanDigits(s, n) == Parsed(0, ErrSyntax)
    decreases |s|
  {
    MulMonotone(1, Pow10(|s|), n + 1);
    if IsDigit(s[0]) {
      var n1 := n * 10 + DigitValue(s[0]);
      var p := Pow10(|s| - 1);
      MulMonotone(1, p, n1 + 1);
      MulMonotone(n1 + 1, 10 * (n + 1), p);
      assert !AllDigits(s[1..]) by {
        var i :| 0 <= i < |s| && !IsDigit(s[i]);
        assert i > 0 && !IsDigit(s[1..][i - 1]);
      }
      ScanDigitsSyntax(s[1..], n1);
    }
  }

  /** Atoi on a well-formed numeral: the numeral's value, clamped to the
      64-bit range, with a range error exactly when clamping was needed. */
  lemma AtoiOfDecimal(s: string)
    requires IsDecimal(s)
    ensures Atoi(s).value == Clamp64(SignedValue(s))
    ensures Atoi(s).err == NoError <==> MinInt64 <= SignedValue(s) <= MaxInt64
    ensures Atoi(s).err != ErrSyntax
  {
    ScanDigitsExact(StripSign(s), 0);
  }

  /** Atoi on a short string that is not a numeral: zero and a syntax error. */
  lemma AtoiOfShortNonDecimal(s: string)
    requires |s| < 19 && !IsDecimal(s)
    ensures Atoi(s) == Parsed(0, ErrSyntax)
  {
    var d := StripSign(s);
    if s != [] && d != [] {
      Pow10Monotone(|d|, 18);
      Pow10Add(9, 9);
      assert Pow10(9) == 1_000_000_000;
      ScanDigitsSyntax(d, 0);
    }
  }

  /** Rendering then parsing gives back every 64-bit integer. */
  lemma AtoiItoa(n: int)
    requires MinInt64 <= n <= MaxInt64
    ensures Atoi(Itoa(n)) == Parsed(n, NoError)
  {
    var s := Itoa(n);
    if n >= 0 {
      assert StripSign(s) == s;
    } else {
      assert StripSign(s) == s[1..];
    }
    AtoiOfDecimal(s);
  }

  // ---------------------------------------------------------------------
  // strings.Join

  /** strings.Join: the elements with the separator between neighbours;
      the result starts with the first element, and its length is the
      elements' lengths plus one separator per gap. */
  function Join(elems: seq<string>, sep: string): (r: string)
    ensures |elems| == 0 ==> r == ""
    ensures |elems| == 1 ==> r == elems[0]
    ensures |elems| > 0 ==> |elems[0]| <= |r| && r[..|elems[0]|] == elems[0]
    ensures |elems| > 0 ==> |r| == TotalLength(elems) + (|elems| - 1) * |sep|
  {
    if |elems| == 0 then ""
    else if |elems| == 1 then elems[0]
    else
      var r := elems[0] + sep + Join(elems[1..], sep);
      assert r[..|elems[0]|] == elems[0];
      r
  }

  /** The summed lengths of some strings. */
  function TotalLength(elems: seq<string>): nat
  {
    if |elems| == 0 then 0 else |elems[0]| + TotalLength(elems[1..])
  }

  /** Joining one more element appends the separator and that element. */
  lemma {:induction false} JoinSnoc(elems: seq<string>, x: string, sep: string)
    requires |elems| > 0
    ensures Join(elems + [x], sep) == Join(elems, sep) + sep + x
  {
    if |elems| > 1 {
      assert (elems + [x])[1..] == elems[1..] + [x];
      JoinSnoc(elems[1..], x, sep);
    }
  }

  /** Two and three elements, written out. */
  lemma JoinPair(a: string, b: string, sep: string)
    ensures Join([a, b], sep) == a + sep + b
  {
    JoinSnoc([a], b, sep);
    assert [a] + [b] == [a, b];
  }

  lemma JoinTriple(a: string, b: string, c: string, sep: string)
    ensures Join([a, b, c], sep) == a + sep + b + sep + c
  {
    JoinPair(a, b, sep);
    JoinSnoc([a, b], c, sep);
    assert [a, b] + [c] == [a, b, c];
  }

  /** The index of the first slash. */
  function SlashIndex(s: string): (i: nat)
    requires '/' in s
    ensures i < |s| && s[i] == '/' && '/' !in s[..i]
  {
    if s[0] == '/' then 0
    else
      assert '/' in s[1..] by { var k :| 0 <= k < |s| && s[k] == '/'; assert s[1..][k - 1] == '/'; }
      var j := SlashIndex(s[1..]);
      assert s[..j + 1] == [s[0]] + s[1..][..j];
      1 + j
  }

  /** Equal strings with a common prefix have equal remainders. */
  lemma CancelPrefix(h: string, a: string, b: string)
    requires h + a == h + b
    ensures a == b
  {
    assert a == (h + a)[|h|..];
    assert b == (h + b)[|h|..];
  }

  /** A path segment free of '/' ends at the first slash: two joins whose
      first segments are slash-free agree only if both parts agree. */
  lemma SplitAtFirstSlash(a: string, x: string, b: string, y: string)
    requires '/' !in a && '/' !in b
    requires a + "/" + x == b + "/" + y
    ensures a == b && x == y
  {
    var s := a + "/" + x;
    assert s[..|a|] == a && s[|a|] == '/';
    assert (b + "/" + y)[..|b|] == b && (b + "/" + y)[|b|] == '/';
    var i := SlashIndex(s);
    assert i == |a| && i == |b|;
    assert x == s[|a| + 1..] && y == (b + "/" + y)[|b| + 1..];
  }

  // ---------------------------------------------------------------------
  // net/http Header, keyed by canonical header names

  type Header = map<string, seq<string>>

  /** Header.Get: the first value under the key, or "" when there is none. */
  function HeaderGet(h: Header, key: string): (v: string)
    ensures key !in h || h[key] == [] ==> v == ""
    ensures key in h && h[key] != [] ==> v == h[key][0]
  {
    if key in h && |h[key]| > 0 then h[key][0] else ""
  }

  /** Header.Add: appends a value under the key. */
  function HeaderAdd(h: Header, key: string, value: string): (r: Header)
    ensures r.Keys == h.Keys + {key}
    ensures forall k :: k in h && k != key ==> r[k] == h[k]
    ensures key in h && h[key] != [] ==> HeaderGet(r, key) == HeaderGet(h, key)
    ensures key !in h ==> HeaderGet(r, key) == value
    ensures r[key] == (if key in h then h[key] else []) + [value]
  {
    h[key := (if key in h then h[key] else []) + [value]]
  }

  /** Header.Set: replaces every value under the key by one value. */
  function HeaderSet(h: Header, key: string, value: string): (r: Header)
    ensures r.Keys == h.Keys + {key}
    ensures forall k :: k in h && k != key ==> r[k] == h[k]
    ensures HeaderGet(r, key) == value
    ensures r[key] == [value]
  {
    h[key := [value]]
  }
}
