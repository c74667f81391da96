/** base/LogStream.cc and base/LogStream.h: integers to text in place, and the fixed buffer that
    collects whole tokens. */
module Numerals {
  import opened Common

  const DIGITS: string := "9876543210123456789"
  const HEX_DIGITS: string := "0123456789ABCDEF"

  /** The remainder of C++ division has the sign of the dividend. */
  function TruncMod(n: int, d: int): int
    requires d > 0
  {
    n - d * TruncDiv(n, d)
  }

  function Abs(n: int): nat { if n >= 0 then n else -n }

  // ----- Numerals, stated without the algorithm -----

  /** The bases of convert and convertHex. */
  predicate IsBase(base: nat) { base == 10 || base == 16 }

  /** Most significant digit first, no leading zero. */
  function Digits(n: nat, base: nat): (s: string)
    requires IsBase(base)
    ensures |s| >= 1
  {
    if n < base then [HEX_DIGITS[n]] else Digits(n / base, base) + [HEX_DIGITS[n % base]]
  }

  function Numeral(v: int): string { if v < 0 then ['-'] + Digits(-v, 10) else Digits(v, 10) }

  function DigitValue(c: char): int {
    if '0' <= c <= '9' then c as int - '0' as int
    else if 'A' <= c <= 'F' then c as int - 'A' as int + 10
    else -1
  }

  predicate IsDigits(s: string, base: nat) { forall i | 0 <= i < |s| :: 0 <= DigitValue(s[i]) < base }

  function Shift(n: int, base: nat): int { n * base }

  function Parse(s: string, base: nat): int {
    if s == [] then 0 else Shift(Parse(s[..|s| - 1], base), base) + DigitValue(s[|s| - 1])
  }

  function ParseInt(s: string): int {
    if s != [] && s[0] == '-' then -Parse(s[1..], 10) else Parse(s, 10)
  }

  /** No sign but a minus on a non-zero number, no leading zero. */
  predicate IsCanonical(s: string) {
    if s != [] && s[0] == '-' then |s| >= 2 && IsDigits(s[1..], 10) && s[1] != '0'
    else s != [] && IsDigits(s, 10) && (|s| > 1 ==> s[0] != '0')
  }

  lemma HexDigitValue(n: nat)
    requires n < 16
    ensures DigitValue(HEX_DIGITS[n]) == n
    ensures HEX_DIGITS[n] != '-' && (HEX_DIGITS[n] == '0' <==> n == 0)
  {
    assert HEX_DIGITS == ['0', '1', '2', '3', '4', '5', '6', '7', '8', '9', 'A', 'B', 'C', 'D', 'E', 'F'];
  }

  lemma DigitOf(c: char)
    requires 0 <= DigitValue(c) < 16
    ensures HEX_DIGITS[DigitValue(c)] == c
  {
    assert HEX_DIGITS == ['0', '1', '2', '3', '4', '5', '6', '7', '8', '9', 'A', 'B', 'C', 'D', 'E', 'F'];
  }

  lemma QuotientRemainder(n: nat, base: nat)
    requires IsBase(base)
    ensures n == Shift(n / base, base) + n % base
    ensures if n < base then n / base == 0 && n % base == n else 0 < n / base < n
  {
    if base == 10 {
      assert n == 10 * (n / 10) + n % 10;
    } else {
      assert n == 16 * (n / 16) + n % 16;
    }
  }

  lemma ShiftBack(q: nat, d: nat, base: nat)
    requires IsBase(base) && d < base
    ensures var n := Shift(q, base) + d;
            n >= 0 && n / base == q && n % base == d && (q >= 1 ==> n >= base) && (q + d >= 1 ==> n >= 1)
  {
    if base == 10 {
      assert (q * 10 + d) / 10 == q;
    } else {
      assert (q * 16 + d) / 16 == q;
    }
  }

  lemma {:induction false} DigitsParse(n: nat, base: nat)
    requires IsBase(base)
    ensures Parse(Digits(n, base), base) == n && IsDigits(Digits(n, base), base)
    ensures Digits(n, base)[0] != '-' && (n > 0 ==> Digits(n, base)[0] != '0')
  {
    QuotientRemainder(n, base);
    HexDigitValue(n % base);
    hide DigitValue, Shift;
    if n >= base {
      DigitsParse(n / base, base);
      var s := Digits(n, base);
      assert s[..|s| - 1] == Digits(n / base, base);
    } else {
      ParseOne(HEX_DIGITS[n], base);
    }
  }

  lemma ParseOne(c: char, base: nat)
    ensures Parse([c], base) == DigitValue(c)
  {
    assert [c][..0] == [];
  }

  /** Every integer's numeral is canonical and parses back to it. */
  lemma NumeralRoundTrip(v: int)
    ensures IsCanonical(Numeral(v)) && ParseInt(Numeral(v)) == v
  {
    DigitsParse(Abs(v), 10);
    if v < 0 {
      assert Numeral(v)[1..] == Digits(-v, 10);
    } else {
      if v == 0 {
        assert Digits(0, 10) == [HEX_DIGITS[0]];
      }
    }
  }

  lemma {:induction false} ParseDigits(s: string, base: nat)
    requires IsBase(base) && s != [] && IsDigits(s, base) && (|s| > 1 ==> s[0] != '0')
    ensures Parse(s, base) >= 0 && Digits(Parse(s, base), base) == s
    ensures s[0] != '0' ==> Parse(s, base) > 0
  {
    var front, last := s[..|s| - 1], s[|s| - 1];
    DigitOf(last);
    assert s == front + [last];
    if front == [] {
      ParseOne(last, base);
      HexDigitValue(DigitValue(last));
    } else {
      ParseDigits(front, base);
      hide DigitValue, Shift;
      ShiftBack(Parse(front, base), DigitValue(last), base);
    }
  }

  /** And every canonical numeral is the numeral of the integer it parses to, so it is the only one. */
  lemma NumeralIsUnique(s: string)
    requires IsCanonical(s)
    ensures Numeral(ParseInt(s)) == s
  {
    if s[0] == '-' {
      ParseDigits(s[1..], 10);
      assert ['-'] + s[1..] == s;
    } else {
      ParseDigits(s, 10);
    }
  }

  // ----- Length -----

  function Pow(base: nat, k: nat): nat { if k == 0 then 1 else base * Pow(base, k - 1) }

  lemma {:induction false} DigitsLength(n: nat, base: nat, k: nat)
    requires IsBase(base) && k >= 1 && n < Pow(base, k)
    ensures |Digits(n, base)| <= k
  {
    QuotientRemainder(n, base);
    if n >= base {
      PowGrows(n, base, k);
      DigitsLength(n / base, base, k - 1);
    }
  }

  lemma PowGrows(n: nat, base: nat, k: nat)
    requires IsBase(base) && k >= 1 && base <= n < Pow(base, k)
    ensures k >= 2 && n / base < Pow(base, k - 1)
  {
    var p := Pow(base, k - 1);
    if base == 10 {
      assert n < 10 * p;
    } else {
      assert n < 16 * p;
    }
  }

  predicate IsFixedWidth(v: int) { -0x8000_0000_0000_0000 <= v <= 0xffff_ffff_ffff_ffff }

  const MAX_NUMERIC_SIZE: nat := 32

  lemma Pow10()
    ensures Pow(10, 20) == 100_000_000_000_000_000_000
  {
    assert Pow(10, 5) == 100_000;
    assert Pow(10, 10) == 10_000_000_000;
    assert Pow(10, 15) == 1_000_000_000_000_000;
  }

  lemma Pow16()
    ensures Pow(16, 16) == 0x1_0000_0000_0000_0000
  {
    assert Pow(16, 4) == 0x1_0000;
    assert Pow(16, 8) == 0x1_0000_0000;
    assert Pow(16, 12) == 0x1_0000_0000_0000;
  }

  /** Any integer type's value, the most negative one included, fits kMaxNumericSize with its
      terminator; so does any pointer with its 0x. */
  lemma NumeralFits(v: int)
    requires IsFixedWidth(v)
    ensures |Numeral(v)| + 1 < MAX_NUMERIC_SIZE
    ensures v >= 0 ==> 2 + |Digits(v, 16)| + 1 < MAX_NUMERIC_SIZE
  {
    Pow10();
    DigitsLength(Abs(v), 10, 20);
    if v >= 0 {
      Pow16();
      DigitsLength(v, 16, 16);
    }
  }

  // ----- The loops -----

  function Reverse(s: string): (r: string)
    ensures |r| == |s|
  {
    if s == [] then [] else [s[|s| - 1]] + Reverse(s[..|s| - 1])
  }

  lemma {:induction false} ReverseAt(s: string, k: nat)
    requires k < |s|
    ensures Reverse(s)[k] == s[|s| - 1 - k]
  {
    if k > 0 {
      ReverseAt(s[..|s| - 1], k - 1);
    }
  }

  lemma ReverseAppend(s: string, c: char)
    ensures Reverse(s + [c]) == [c] + Reverse(s)
  {
    assert (s + [c])[..|s|] == s;
  }

  /** std::reverse on [from, to). */
  method ReverseInPlace(buf: array<char>, from: nat, to: nat)
    requires from <= to <= buf.Length
    modifies buf
    ensures buf[from..to] == Reverse(old(buf[from..to]))
    ensures buf[..from] == old(buf[..from]) && buf[to..] == old(buf[to..])
  {
    hide Reverse;
    ghost var was := buf[..];
    var i, j := from, to;
    while i + 1 < j
      invariant from <= i <= j <= to && i - from == to - j
      invariant forall k | from <= k < i || j <= k < to :: buf[k] == was[from + to - 1 - k]
      invariant forall k | i <= k < j :: buf[k] == was[k]
      invariant forall k | 0 <= k < from || to <= k < buf.Length :: buf[k] == was[k]
    {
      j := j - 1;
      buf[i], buf[j] := buf[j], buf[i];
      i := i + 1;
    }
    RangeReversed(was, buf[..], from, to);
    assert buf[from..to] == buf[..][from..to] && buf[..from] == buf[..][..from] && buf[to..] == buf[..][to..];
  }

  lemma RangeReversed(was: string, now: string, from: nat, to: nat)
    requires from <= to <= |was| == |now|
    requires forall k | from <= k < to :: now[k] == was[from + to - 1 - k]
    requires forall k | 0 <= k < from || to <= k < |was| :: now[k] == was[k]
    ensures now[from..to] == Reverse(was[from..to]) && now[..from] == was[..from] && now[to..] == was[to..]
  {
    hide Reverse;
    var before, after := was[from..to], now[from..to];
    forall k | 0 <= k < to - from ensures after[k] == before[to - from - 1 - k] {
      assert after[k] == now[from + k];
    }
    IsReverse(before, after);
  }

  lemma IsReverse(s: string, r: string)
    requires |r| == |s| && forall k | 0 <= k < |r| :: r[k] == s[|s| - 1 - k]
    ensures r == Reverse(s)
  {
    forall k | 0 <= k < |r| ensures r[k] == Reverse(s)[k] {
      ReverseAt(s, k);
    }
  }

  lemma DigitStep(i: int)
    ensures Abs(TruncDiv(i, 10)) == Abs(i) / 10 && Abs(TruncMod(i, 10)) == Abs(i) % 10
    ensures TruncDiv(i, 10) == 0 <==> Abs(i) < 10
  {
  }

  /** digits[9 + lsd], for remainders of either sign. */
  lemma SignedDigit(lsd: int)
    requires -10 < lsd < 10
    ensures DIGITS[9 + lsd] == HEX_DIGITS[Abs(lsd)]
  {
    assert DIGITS == ['9', '8', '7', '6', '5', '4', '3', '2', '1', '0', '1', '2', '3', '4', '5', '6', '7', '8', '9'];
    assert HEX_DIGITS[..10] == ['0', '1', '2', '3', '4', '5', '6', '7', '8', '9'];
  }

  lemma PushDigit(all: string, n: nat, base: nat, written: string, c: char)
    requires IsBase(base) && all == Digits(n, base) + Reverse(written) && c == HEX_DIGITS[n % base]
    ensures all == (if n < base then [] else Digits(n / base, base)) + Reverse(written + [c])
    ensures n < base <==> n / base == 0
    ensures |written| < |all|
  {
    QuotientRemainder(n, base);
    LastDigit(n, base);
    hide Digits, Reverse;
    ReverseAppend(written, c);
    Associative(if n < base then [] else Digits(n / base, base), [c], Reverse(written));
  }

  lemma LastDigit(n: nat, base: nat)
    requires IsBase(base)
    ensures Digits(n, base) == (if n < base then [] else Digits(n / base, base)) + [HEX_DIGITS[n % base]]
  {
    if base == 10 {
      assert n < 10 ==> n % 10 == n;
    } else {
      assert n < 16 ==> n % 16 == n;
    }
  }

  /** convert's loop: the digits of |value|, least significant first; returns where they end. */
  method WriteDecimal(buf: array<char>, from: nat, value: int) returns (p: nat)
    requires from + |Digits(Abs(value), 10)| <= buf.Length
    modifies buf
    ensures p == from + |Digits(Abs(value), 10)| && Reverse(buf[from..p]) == Digits(Abs(value), 10)
    ensures buf[..from] == old(buf[..from]) && buf[p..] == old(buf[p..])
  {
    hide Digits, Reverse, TruncDiv, TruncMod;
    var i := value;
    p := from;
    ghost var all := Digits(Abs(value), 10);
    NothingWritten(all, buf, from);
    var more := true;
    while more
      invariant from <= p <= from + |all|
      invariant more ==> all == Digits(Abs(i), 10) + Reverse(buf[from..p])
      invariant !more ==> all == [] + Reverse(buf[from..p])
      invariant buf[..from] == old(buf[..from]) && buf[p..] == old(buf[p..])
      decreases more, Abs(i)
    {
      DigitStep(i);
      var lsd := TruncMod(i, 10);
      SignedDigit(lsd);
      ghost var written := buf[from..p];
      PushDigit(all, Abs(i), 10, written, DIGITS[9 + lsd]);
      i := TruncDiv(i, 10);
      WriteChar(buf, from, p, DIGITS[9 + lsd]);
      p := p + 1;
      more := i != 0;
    }
  }

  lemma NothingWritten(all: string, buf: array<char>, from: nat)
    requires from <= buf.Length
    ensures all == all + Reverse(buf[from..from])
  {
    assert buf[from..from] == [];
  }

  /** *p++ = c, where p starts at buf + from. */
  method WriteChar(buf: array<char>, from: nat, p: nat, c: char)
    requires from <= p < buf.Length
    modifies buf
    ensures buf[from..p + 1] == old(buf[from..p]) + [c]
    ensures buf[..from] == old(buf[..from]) && buf[p + 1..] == old(buf[p + 1..])
    ensures buf[p + 1..] == old(buf[p..])[1..]
  {
    buf[p] := c;
  }

  /** convertHex's loop. */
  method WriteHex(buf: array<char>, from: nat, value: nat) returns (p: nat)
    requires from + |Digits(value, 16)| <= buf.Length
    modifies buf
    ensures p == from + |Digits(value, 16)| && Reverse(buf[from..p]) == Digits(value, 16)
    ensures buf[..from] == old(buf[..from]) && buf[p..] == old(buf[p..])
  {
    hide Digits, Reverse;
    var i := value;
    p := from;
    ghost var all := Digits(value, 16);
    NothingWritten(all, buf, from);
    var more := true;
    while more
      invariant from <= p <= from + |all|
      invariant more ==> all == Digits(i, 16) + Reverse(buf[from..p])
      invariant !more ==> all == [] + Reverse(buf[from..p])
      invariant buf[..from] == old(buf[..from]) && buf[p..] == old(buf[p..])
      decreases more, i
    {
      var lsd := i % 16;
      ghost var written := buf[from..p];
      PushDigit(all, i, 16, written, HEX_DIGITS[lsd]);
      i := i / 16;
      WriteChar(buf, from, p, HEX_DIGITS[lsd]);
      p := p + 1;
      more := i != 0;
    }
  }

  /** The end of both: terminate, then reverse [from, p). */
  method Terminate(buf: array<char>, from: nat, p: nat)
    requires from <= p < buf.Length
    modifies buf
    ensures buf[from..p] == Reverse(old(buf[from..p])) && buf[p] == '\0'
    ensures buf[..from] == old(buf[..from]) && buf[p + 1..] == old(buf[p + 1..])
  {
    hide Reverse;
    buf[p] := '\0';
    ghost var tail := buf[p..];
    assert buf[from..p] == old(buf[from..p]);
    ReverseInPlace(buf, from, p);
    assert buf[p] == buf[p..][0] == tail[0];
    assert buf[p + 1..] == buf[p..][1..];
  }

  /** convert: the decimal numeral of `value` at buf[from..], NUL-terminated; nothing else changes. */
  method Convert(buf: array<char>, from: nat, value: int) returns (len: nat)
    requires from + |Numeral(value)| + 1 <= buf.Length
    modifies buf
    ensures len == |Numeral(value)| && buf[from..from + len] == Numeral(value)
    ensures buf[from + len] == '\0'
    ensures buf[..from] == old(buf[..from]) && buf[from + len + 1..] == old(buf[from + len + 1..])
  {
    hide Digits, Reverse, Numeral;
    var p := WriteSigned(buf, from, value);
    assert |buf[from..p]| == |Numeral(value)| by { ReverseLength(buf[from..p]); }
    ghost var tail := buf[p..];
    Terminate(buf, from, p);
    len := p - from;
    assert buf[p + 1..] == tail[1..];
    assert old(buf[p + 1..]) == old(buf[p..])[1..];
  }

  /** The digits and the sign, last character first. */
  method WriteSigned(buf: array<char>, from: nat, value: int) returns (p: nat)
    requires from + |Numeral(value)| <= buf.Length
    modifies buf
    ensures from <= p == from + |Numeral(value)| && Reverse(buf[from..p]) == Numeral(value)
    ensures buf[..from] == old(buf[..from]) && buf[p..] == old(buf[p..])
  {
    hide Digits, Reverse;
    p := WriteDecimal(buf, from, value);
    if value < 0 {
      ghost var digits, tail := buf[from..p], buf[p..];
      WriteChar(buf, from, p, '-');
      ReverseAppend(digits, '-');
      p := p + 1;
      assert old(buf[p..]) == tail[1..];
    }
  }

  lemma ReverseLength(s: string)
    ensures |Reverse(s)| == |s|
  {
  }

  /** convertHex: upper-case hexadecimal, the same loop without a sign. */
  method ConvertHex(buf: array<char>, from: nat, value: nat) returns (len: nat)
    requires from + |Digits(value, 16)| + 1 <= buf.Length
    modifies buf
    ensures len == |Digits(value, 16)| && buf[from..from + len] == Digits(value, 16)
    ensures buf[from + len] == '\0'
    ensures buf[..from] == old(buf[..from]) && buf[from + len + 1..] == old(buf[from + len + 1..])
  {
    hide Digits, Reverse;
    var p := WriteHex(buf, from, value);
    ghost var tail := buf[p..];
    Terminate(buf, from, p);
    len := p - from;
    assert buf[p + 1..] == tail[1..];
    assert old(buf[p + 1..]) == old(buf[p..])[1..];
  }

  /** The pointer operator: 0x, then the address. */
  method ConvertPointer(buf: array<char>, from: nat, address: nat) returns (len: nat)
    requires from + 2 + |Digits(address, 16)| + 1 <= buf.Length
    modifies buf
    ensures len == 2 + |Digits(address, 16)| && buf[from..from + len] == "0x" + Digits(address, 16)
    ensures buf[..from] == old(buf[..from])
  {
    hide Digits;
    buf[from], buf[from + 1] := '0', 'x';
    ghost var prefix := buf[..from + 2];
    var n := ConvertHex(buf, from + 2, address);
    len := n + 2;
    assert buf[..from + 2] == prefix;
    assert buf[from..from + len] == buf[..from + 2][from..] + buf[from + 2..from + 2 + n];
    assert prefix[from..] == "0x";
    assert buf[..from] == prefix[..from];
  }
}

/** FixedBuffer and the stream operators. */
module LogStreams {
  import opened Common
  import opened Numerals

  datatype Token = Text(text: string) | Character(c: char) | Integer(value: int) | Pointer(address: nat)

  predicate IsToken(t: Token) {
    (t.Integer? ==> IsFixedWidth(t.value)) && (t.Pointer? ==> IsFixedWidth(t.address))
  }

  function Render(t: Token): string {
    match t
    case Text(s) => s
    case Character(c) => [c]
    case Integer(v) => Numeral(v)
    case Pointer(a) => "0x" + Digits(a, 16)
  }

  /** The room each operator asks for. */
  predicate Fits(avail: int, t: Token) {
    match t
    case Text(s) => avail > |s|
    case Character(_) => avail >= 1
    case Integer(_) => avail >= MAX_NUMERIC_SIZE
    case Pointer(_) => avail >= MAX_NUMERIC_SIZE
  }

  /** What each token says, without the algorithm that writes it. */
  lemma TokenText(t: Token)
    ensures match t
            case Text(s) => Render(t) == s
            case Character(c) => Render(t) == [c]
            case Integer(v) => IsCanonical(Render(t)) && ParseInt(Render(t)) == v
            case Pointer(p) => "0x" <= Render(t) && |Render(t)| >= 3 && Parse(Render(t)[2..], 16) == p
  {
    match t
    case Integer(v) => NumeralRoundTrip(v);
    case Pointer(p) =>
      DigitsParse(p, 16);
      assert ("0x" + Digits(p, 16))[2..] == Digits(p, 16);
    case _ =>
  }

  class LogStream {
    const data: array<char>
    var cur: nat

    ghost predicate Valid()
      reads this
    {
      cur <= data.Length
    }

    ghost function Contents(): string
      requires Valid()
      reads this, data
    {
      data[..cur]
    }

    constructor (size: nat)
      ensures Valid() && fresh(data) && data.Length == size && Contents() == []
    {
      data := new char[size](_ => '\0');
      cur := 0;
    }

    function Avail(): nat
      requires Valid()
      reads this
    {
      data.Length - cur
    }

    method Reset()
      modifies this
      ensures Valid() && Contents() == []
    {
      cur := 0;
    }

    /** FixedBuffer::append. */
    method Append(text: string)
      requires Valid()
      modifies this, data
      ensures Valid() && Contents() == old(Contents()) + (if old(Avail()) > |text| then text else [])
    {
      if Avail() > |text| {
        for i := 0 to |text|
          invariant Valid() && cur == old(cur) && cur + |text| <= data.Length
          invariant data[..cur] == old(data[..cur])
          invariant data[cur..cur + i] == text[..i]
        {
          data[cur + i] := text[i];
          assert data[cur..cur + i + 1] == data[cur..cur + i] + [text[i]];
        }
        assert data[..cur + |text|] == data[..cur] + data[cur..cur + |text|];
        cur := cur + |text|;
      }
    }

    /** operator<<: the token whole if it fits, otherwise nothing. No write leaves the array. */
    method Put(t: Token)
      requires Valid() && IsToken(t)
      modifies this, data
      ensures Valid() && Contents() == old(Contents()) + (if Fits(old(Avail()), t) then Render(t) else [])
      ensures old(Contents()) <= Contents()
      ensures var text := Contents()[|old(Contents())|..];
              match t
              case Text(s) => text == if old(Avail()) > |s| then s else []
              case Character(c) => text == if old(Avail()) >= 1 then [c] else []
              case Integer(v) => if old(Avail()) >= 32 then IsCanonical(text) && ParseInt(text) == v else text == []
              case Pointer(p) =>
                if old(Avail()) >= 32 then "0x" <= text && Parse(text[2..], 16) == p && |text| >= 3 else text == []
    {
      TokenText(t);
      hide Numeral, Digits, Parse, ParseInt, IsCanonical;
      match t
      case Text(s) => Append(s);
      case Character(c) =>
        if Avail() >= 1 {
          data[cur] := c;
          cur := cur + 1;
          assert data[..cur] == old(data[..cur]) + [c];
        }
      case Integer(v) => FormatInteger(v);
      case Pointer(a) => FormatPointer(a);
    }

    method FormatInteger(v: int)
      requires Valid() && IsFixedWidth(v)
      modifies this, data
      ensures Valid() && Contents() == old(Contents()) + (if old(Avail()) >= MAX_NUMERIC_SIZE then Numeral(v) else [])
    {
      hide Numeral, Digits;
      if Avail() >= MAX_NUMERIC_SIZE {
        NumeralFits(v);
        hide IsFixedWidth;
        var len := Convert(data, cur, v);
        Slices(data, cur, len);
        cur := cur + len;
      }
    }

    method FormatPointer(a: nat)
      requires Valid() && IsFixedWidth(a)
      modifies this, data
      ensures Valid()
      ensures Contents() == old(Contents()) + (if old(Avail()) >= MAX_NUMERIC_SIZE then "0x" + Digits(a, 16) else [])
    {
      hide Digits;
      if Avail() >= MAX_NUMERIC_SIZE {
        NumeralFits(a);
        hide IsFixedWidth;
        var len := ConvertPointer(data, cur, a);
        Slices(data, cur, len);
        cur := cur + len;
      }
    }

    method PutAll(tokens: seq<Token>)
      requires Valid() && forall k | 0 <= k < |tokens| :: IsToken(tokens[k])
      modifies this, data
      ensures Valid() && Contents() == Streamed(data.Length, old(Contents()), tokens)
    {
      assert tokens[..0] == [];
      for i := 0 to |tokens|
        invariant Valid() && Contents() == Streamed(data.Length, old(Contents()), tokens[..i])
      {
        assert tokens[..i + 1][..i] == tokens[..i];
        Put(tokens[i]);
      }
      assert tokens[..|tokens|] == tokens;
    }
  }

  lemma Slices(data: array<char>, cur: nat, len: nat)
    requires cur + len <= data.Length
    ensures data[..cur + len] == data[..cur] + data[cur..cur + len]
  {
  }

  // ----- Whole runs of operator<< -----

  function Streamed(size: nat, start: string, tokens: seq<Token>): string {
    if tokens == [] then start
    else
      var before := Streamed(size, start, tokens[..|tokens| - 1]);
      var t := tokens[|tokens| - 1];
      before + (if Fits(size - |before|, t) then Render(t) else [])
  }

  /** Which tokens a run keeps. */
  function Kept(size: nat, start: string, tokens: seq<Token>): (keep: seq<bool>)
    ensures |keep| == |tokens|
  {
    if tokens == [] then []
    else
      var front := tokens[..|tokens| - 1];
      Kept(size, start, front) + [Fits(size - |Streamed(size, start, front)|, tokens[|tokens| - 1])]
  }

  function Select(tokens: seq<Token>, keep: seq<bool>): string
    requires |tokens| == |keep|
  {
    if tokens == [] then []
    else
      var n := |tokens| - 1;
      Select(tokens[..n], keep[..n]) + (if keep[n] then Render(tokens[n]) else [])
  }

  /** A run leaves the in-order concatenation of whole tokens, within the buffer. */
  lemma {:induction false} WholeTokensOnly(size: nat, start: string, tokens: seq<Token>)
    requires |start| <= size && forall k | 0 <= k < |tokens| :: IsToken(tokens[k])
    ensures Streamed(size, start, tokens) == start + Select(tokens, Kept(size, start, tokens))
    ensures |Streamed(size, start, tokens)| <= size
  {
    hide Render, Fits;
    if tokens == [] {
      assert start + [] == start;
    } else {
      var n := |tokens| - 1;
      var front, t := tokens[..n], tokens[n];
      WholeTokensOnly(size, start, front);
      var keep := Kept(size, start, tokens);
      assert keep[..n] == Kept(size, start, front);
      RenderLength(t);
      var kept := if keep[n] then Render(t) else [];
      Associative(start, Select(front, keep[..n]), kept);
    }
  }

  lemma RenderLength(t: Token)
    requires IsToken(t)
    ensures forall avail :: Fits(avail, t) ==> |Render(t)| <= avail
    ensures forall avail :: avail >= |Render(t)| + MAX_NUMERIC_SIZE ==> Fits(avail, t)
  {
    if t.Integer? {
      NumeralFits(t.value);
    } else if t.Pointer? {
      NumeralFits(t.address);
    }
  }

  function Length(tokens: seq<Token>): nat {
    if tokens == [] then 0 else Length(tokens[..|tokens| - 1]) + |Render(tokens[|tokens| - 1])|
  }

  /** With 32 characters to spare, no token of the run is dropped. */
  lemma {:induction false} NothingDropped(size: nat, start: string, tokens: seq<Token>)
    requires |start| + Length(tokens) + MAX_NUMERIC_SIZE <= size
    requires forall k | 0 <= k < |tokens| :: IsToken(tokens[k])
    ensures forall k | 0 <= k < |tokens| :: Kept(size, start, tokens)[k]
    ensures |Streamed(size, start, tokens)| == |start| + Length(tokens)
  {
    if tokens != [] {
      NothingDropped(size, start, tokens[..|tokens| - 1]);
      RenderLength(tokens[|tokens| - 1]);
    }
  }
}
