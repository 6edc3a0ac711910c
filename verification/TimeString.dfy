/** Seek targets as text: the playlist engine's printer and the engine's parser. */
module TimeString {
  import opened Options

  /** `Undefined` is what C++ leaves open: an unset variable, or a number out of its type's range. */
  datatype Target = Timestamp(ms: int) | Relative(ms: int) | Wallclock(text: string) | Undefined

  const INT_MAX := 0x7fff_ffff

  const LONG_MAX := 0x7fff_ffff_ffff_ffff

  predicate InInt(n: int) { -INT_MAX - 1 <= n <= INT_MAX }

  // ------------------------------------------------------------------ digits

  predicate IsDigit(c: char) { '0' <= c <= '9' }

  predicate AllDigits(s: string) { forall k :: 0 <= k < |s| ==> IsDigit(s[k]) }

  function DigitValue(c: char): (d: int)
    requires IsDigit(c)
    ensures 0 <= d <= 9
  {
    c as int - '0' as int
  }

  function DigitChar(d: int): (c: char)
    requires 0 <= d <= 9
    ensures IsDigit(c) && DigitValue(c) == d
  {
    (d + '0' as int) as char
  }

  /** The number a string of digits writes. */
  function Value(s: string): (n: int)
    requires AllDigits(s)
    ensures 0 <= n
  {
    if s == "" then 0 else Value(s[..|s| - 1]) * 10 + DigitValue(s[|s| - 1])
  }

  // ------------------------------------------------------------------ printing

  function Decimal(n: nat): (s: string)
    ensures AllDigits(s) && s != ""
  {
    if n < 10 then [DigitChar(n)] else Decimal(n / 10) + [DigitChar(n % 10)]
  }

  /** Filled up with zeros in front to a width. */
  function Padded(s: string, width: nat): (r: string)
    requires AllDigits(s)
    ensures AllDigits(r) && |r| == (if |s| < width then width else |s|)
    decreases width - |s|
  {
    if |s| < width then Padded("0" + s, width) else s
  }

  function Text(h: string, m: string, s: string, f: string): string {
    h + ":" + m + ":" + s + "." + f
  }

  function Hms(ms: nat): string {
    var hours, belowHour := ms / 3_600_000, ms % 3_600_000;
    var minutes, belowMinute := belowHour / 60_000, belowHour % 60_000;
    var seconds, millis := belowMinute / 1000, belowMinute % 1000;
    Text(Padded(Decimal(hours), 2), Padded(Decimal(minutes), 2), Padded(Decimal(seconds), 2), Padded(Decimal(millis), 3))
  }

  lemma {:induction false} DecimalValue(n: nat)
    ensures Value(Decimal(n)) == n && (n < 1000 ==> |Decimal(n)| <= 3)
    decreases n
  {
    if n >= 10 {
      DecimalValue(n / 10);
      assert Decimal(n)[..|Decimal(n)| - 1] == Decimal(n / 10);
      assert n < 1000 ==> n / 10 < 100;
      if n < 1000 && n / 10 >= 10 {
        assert n / 10 / 10 < 10;
      }
    }
  }

  lemma {:induction false} LeadingZero(s: string)
    requires AllDigits(s)
    ensures AllDigits("0" + s) && Value("0" + s) == Value(s)
  {
    if s == "" {
      assert ("0" + s)[..0] == "";
    } else {
      LeadingZero(s[..|s| - 1]);
      assert ("0" + s)[..|s|] == "0" + s[..|s| - 1];
    }
  }

  lemma {:induction false} PaddedValue(s: string, width: nat)
    requires AllDigits(s)
    ensures Value(Padded(s, width)) == Value(s)
    decreases width - |s|
  {
    if |s| < width {
      LeadingZero(s);
      PaddedValue("0" + s, width);
    }
  }

  /** A number printed with a width reads back. */
  lemma PrintedValue(n: nat, width: nat)
    ensures Value(Padded(Decimal(n), width)) == n && Padded(Decimal(n), width) != ""
  {
    DecimalValue(n);
    PaddedValue(Decimal(n), width);
  }

  // ------------------------------------------------------------------ reading numbers

  function Find(s: string, c: char, from: nat): (r: Option<nat>)
    ensures r.Some? ==> from <= r.value < |s| && s[r.value] == c && forall k :: from <= k < r.value ==> s[k] != c
    ensures r.None? ==> forall k :: from <= k < |s| ==> s[k] != c
    decreases |s| - from
  {
    if from >= |s| then None else if s[from] == c then Some(from) else Find(s, c, from + 1)
  }

  predicate IsSpace(c: char) { c == ' ' || '\t' <= c <= '\r' }

  function SkipSpaces(s: string): string {
    if s != "" && IsSpace(s[0]) then SkipSpaces(s[1..]) else s
  }

  /** How many digits a string begins with. */
  function DigitCount(s: string): (n: nat)
    ensures n <= |s| && AllDigits(s[..n]) && (n < |s| ==> !IsDigit(s[n]))
  {
    if s == "" || !IsDigit(s[0]) then 0
    else
      var n := DigitCount(s[1..]);
      assert forall k :: 0 < k <= n ==> s[k] == s[1..][k - 1];
      n + 1
  }

  /** %d: spaces, a sign, digits; the number and what follows it. */
  function ReadInt(s: string): Option<(int, string)> {
    var t := SkipSpaces(s);
    var negative := t != "" && t[0] == '-';
    var u := if t != "" && (t[0] == '-' || t[0] == '+') then t[1..] else t;
    var n := DigitCount(u);
    if n == 0 then None else Some((if negative then -Value(u[..n]) else Value(u[..n]), u[n..]))
  }

  function Atoi(s: string): int {
    var r := ReadInt(s);
    if r.None? then 0 else r.value.0
  }

  /** sscanf() of "%d:%d:%d": the numbers it stores, in order. */
  function Scan(s: string, left: nat): (r: seq<int>)
    ensures |r| <= left
    decreases left
  {
    if left == 0 then []
    else
      var first := ReadInt(s);
      if first.None? then []
      else if first.value.1 != "" && first.value.1[0] == ':' then [first.value.0] + Scan(first.value.1[1..], left - 1)
      else [first.value.0]
  }

  // ------------------------------------------------------------------ the fraction

  /** C++ division of ints: towards zero. */
  function Tenth(n: int): (r: int)
    ensures if n >= 0 then r * 10 <= n < r * 10 + 10 else r * 10 - 10 < n <= r * 10
  {
    if n >= 0 then n / 10 else -((-n) / 10)
  }

  /** The two loops: a number of `length` digits brought to three. */
  function Scaled(n: int, length: nat): int
    decreases if length > 3 then length - 3 else 3 - length
  {
    if length > 3 then Scaled(Tenth(n), length - 1)
    else if length < 3 then Scaled(n * 10, length + 1)
    else n
  }

  /** None where atoi() is out of range. */
  method Milliseconds(text: string) returns (r: Option<int>)
    ensures r == if InInt(Atoi(text)) then Some(Scaled(Atoi(text), |text|)) else None
    ensures AllDigits(text) ==> r == if Value(text) <= INT_MAX then Some(Value((text + "000")[..3])) else None
  {
    var mmm := Atoi(text);
    if AllDigits(text) {
      FractionIsTruncated(text);
    }
    if !InInt(mmm) {
      return None;
    }
    var length: nat := |text|;
    while length > 3
      invariant Scaled(mmm, length) == Scaled(Atoi(text), |text|) && (length >= 3 || length == |text|)
    {
      length := length - 1;
      mmm := Tenth(mmm);
    }
    while length < 3
      invariant 0 <= length <= 3 && Scaled(mmm, length) == Scaled(Atoi(text), |text|)
    {
      length := length + 1;
      mmm := mmm * 10;
    }
    r := Some(mmm);
  }

  lemma {:induction false} ShortenDigits(s: string)
    requires AllDigits(s) && 3 <= |s|
    ensures Scaled(Value(s), |s|) == Value(s[..3])
    decreases |s|
  {
    if |s| > 3 {
      var t := s[..|s| - 1];
      assert Value(s) / 10 == Value(t);
      ShortenDigits(t);
      assert t[..3] == s[..3];
    } else {
      assert s[..3] == s;
    }
  }

  lemma {:induction false} LengthenDigits(s: string)
    requires AllDigits(s) && |s| <= 3
    ensures AllDigits((s + "000")[..3]) && Scaled(Value(s), |s|) == Value((s + "000")[..3])
    decreases 3 - |s|
  {
    if |s| < 3 {
      var t := s + "0";
      assert t[..|s|] == s;
      LengthenDigits(t);
      assert (t + "000")[..3] == (s + "000")[..3];
    } else {
      assert (s + "000")[..3] == s;
    }
  }

  lemma {:induction false} DigitCountIs(s: string, m: nat)
    requires m <= |s| && AllDigits(s[..m]) && (m < |s| ==> !IsDigit(s[m]))
    ensures DigitCount(s) == m
  {
    if m > 0 {
      assert IsDigit(s[..m][0]);
      assert s[1..][..m - 1] == s[..m][1..];
      DigitCountIs(s[1..], m - 1);
    }
  }

  lemma ReadDigits(d: string, rest: string)
    requires d != "" && AllDigits(d) && (rest == "" || !IsDigit(rest[0]))
    ensures ReadInt(d + rest) == Some((Value(d), rest))
  {
    var s := d + rest;
    assert s[..|d|] == d && s[|d|..] == rest;
    DigitCountIs(s, |d|);
    assert s[0] == d[0];
    assert SkipSpaces(s) == s;
  }

  /** A fraction of any number of digits counts as its value cut off after the milliseconds. */
  lemma FractionIsTruncated(text: string)
    requires AllDigits(text)
    ensures Atoi(text) == Value(text) && Scaled(Atoi(text), |text|) == Value((text + "000")[..3])
  {
    if text == "" {
      LengthenDigits(text);
    } else {
      ReadDigits(text, "");
      assert text + "" == text;
      if |text| >= 3 {
        ShortenDigits(text);
        assert (text + "000")[..3] == text[..3];
      } else {
        LengthenDigits(text);
      }
    }
  }

  // ------------------------------------------------------------------ from_string()

  function Abs(n: int): int { if n < 0 then -n else n }

  function Signed(s: string, ms: int): Target {
    if s != "" && s[0] == '-' then Relative(-ms) else if s != "" && s[0] == '+' then Relative(ms) else Timestamp(ms)
  }

  /** Hours, minutes, seconds and milliseconds, added up in ints. */
  function AddedUp(hh: int, mm: int, ss: int, mmm: int): Option<int> {
    var minutes := hh * 60 + mm;
    var seconds := minutes * 60 + ss;
    var total := seconds * 1000 + mmm;
    if InInt(hh * 60) && InInt(minutes) && InInt(minutes * 60) && InInt(seconds) && InInt(seconds * 1000) && InInt(total)
    then Some(total) else None
  }

  /** The text after the point, if there is one after the first colon. */
  function Fraction(s: string, colon: nat): Option<string> {
    var dot := Find(s, '.', colon + 1);
    if dot.None? then None else Some(s[dot.value + 1..])
  }

  /** The time of these numbers and this fraction; the sign is the text's. */
  function FromNumbers(s: string, numbers: seq<int>, fraction: Option<string>): Target {
    if |numbers| < 2 || !(forall k :: 0 <= k < |numbers| ==> -INT_MAX <= numbers[k] <= INT_MAX) then Undefined
    else if fraction.Some? && !InInt(Atoi(fraction.value)) then Undefined
    else
      var mmm := if fraction.None? then 0 else Scaled(Atoi(fraction.value), |fraction.value|);
      var first := Abs(numbers[0]);
      var total :=
        if |numbers| == 2 then AddedUp(0, first, numbers[1], mmm)
        else AddedUp(first, numbers[1], numbers[2], mmm);
      if total.None? then Undefined else Signed(s, total.value)
  }

  function FromString(s: string): Target {
    if 'T' in s then Wallclock(s)
    else
      var colon := Find(s, ':', 0);
      if colon.None? then if -LONG_MAX <= Atoi(s) <= LONG_MAX then Signed(s, Abs(Atoi(s))) else Undefined
      else FromNumbers(s, Scan(s, 3), Fraction(s, colon.value))
  }

  // ------------------------------------------------------------------ main results

  predicate Number(s: string) {
    s != "" && AllDigits(s) && Value(s) <= INT_MAX
  }

  lemma ScanStep(d: string, rest: string, left: nat)
    requires d != "" && AllDigits(d) && left > 0 && (rest == "" || !IsDigit(rest[0]))
    ensures rest != "" && rest[0] == ':' ==> Scan(d + rest, left) == [Value(d)] + Scan(rest[1..], left - 1)
    ensures rest == "" || rest[0] != ':' ==> Scan(d + rest, left) == [Value(d)]
  {
    ReadDigits(d, rest);
  }

  lemma ScanTwo(m: string, s: string, afterM: string, afterS: string, left: nat)
    requires AllDigits(m) && AllDigits(s) && m != "" && s != "" && left > 1
    requires afterM != "" && afterM[0] == ':' && afterM[1..] == s + afterS
    requires afterS == "" || (!IsDigit(afterS[0]) && afterS[0] != ':')
    ensures Scan(m + afterM, left) == [Value(m), Value(s)]
  {
    ScanStep(m, afterM, left);
    ScanStep(s, afterS, left - 1);
  }

  lemma AtoiDigits(d: string)
    requires d != "" && AllDigits(d)
    ensures Atoi(d) == Value(d)
  {
    ReadDigits(d, "");
    assert d + "" == d;
  }

  lemma AtoiAfterSign(text: string, d: string)
    requires d != "" && AllDigits(d) && (text == "+" + d || text == "-" + d)
    ensures Atoi(text) == if text[0] == '-' then -Value(d) else Value(d)
  {
    DigitCountIs(d, |d|);
    assert d[..|d|] == d;
    assert text[1..] == d;
    assert SkipSpaces(text) == text;
  }

  lemma AtoiSigned(sign: string, d: string)
    requires d != "" && AllDigits(d) && (sign == "" || sign == "+" || sign == "-")
    ensures Atoi(sign + d) == if sign == "-" then -Value(d) else Value(d)
  {
    if sign == "" {
      assert sign + d == d;
      AtoiDigits(d);
    } else {
      AtoiAfterSign(sign + d, d);
    }
  }

  lemma NoSeparators(sign: string, d: string)
    requires AllDigits(d) && (sign == "" || sign == "+" || sign == "-")
    ensures 'T' !in sign + d && Find(sign + d, ':', 0).None?
  {
  }

  lemma SignedNumber(sign: string, d: string)
    requires d != "" && AllDigits(d) && (sign == "" || sign == "+" || sign == "-")
    ensures FromString(sign + d) == if Value(d) <= LONG_MAX then Signed(sign + d, Value(d)) else Undefined
    ensures sign == "" ==> IsDigit((sign + d)[0])
  {
    AtoiSigned(sign, d);
    NoSeparators(sign, d);
  }

  /** A plain number is a time in milliseconds, relative when it has a sign, exactly as far as 64 bits reach. */
  lemma PlainNumber(n: int)
    requires 0 <= n
    ensures FromString(Decimal(n)) == if n <= LONG_MAX then Timestamp(n) else Undefined
    ensures FromString("+" + Decimal(n)) == if n <= LONG_MAX then Relative(n) else Undefined
    ensures FromString("-" + Decimal(n)) == if n <= LONG_MAX then Relative(-n) else Undefined
  {
    DecimalValue(n);
    SignedNumber("", Decimal(n));
    assert "" + Decimal(n) == Decimal(n);
    SignedNumber("+", Decimal(n));
    SignedNumber("-", Decimal(n));
  }

  // ------------------------------------------------------------------ with a sign, without hours, without a fraction

  predicate Sign(sign: string) { sign == "" || sign == "+" || sign == "-" }

  /** Minutes and seconds, with hours in front or not and a fraction behind or not. */
  function ClockText(h: Option<string>, m: string, s: string, f: Option<string>): string {
    (if h.Some? then h.value + ":" + m else m) + ":" + s + Tail(f)
  }

  function Tail(f: Option<string>): string {
    if f.Some? then "." + f.value else ""
  }

  /** What such a text says, in milliseconds. */
  function ClockTime(h: Option<string>, m: string, s: string, f: Option<string>): Option<int>
    requires (h.Some? ==> Number(h.value)) && Number(m) && Number(s) && (f.Some? ==> Number(f.value))
  {
    AddedUp(if h.Some? then Value(h.value) else 0, Value(m), Value(s), Thousandths(f))
  }

  lemma ReadAfterSign(t: string, d: string, rest: string)
    requires t != "" && (t[0] == '+' || t[0] == '-') && t[1..] == d + rest
    requires d != "" && AllDigits(d) && (rest == "" || !IsDigit(rest[0]))
    ensures ReadInt(t) == Some((if t[0] == '-' then -Value(d) else Value(d), rest))
  {
    var u := d + rest;
    assert u[..|d|] == d && u[|d|..] == rest;
    DigitCountIs(u, |d|);
    assert SkipSpaces(t) == t;
  }

  lemma ReadSigned(sign: string, d: string, rest: string)
    requires Sign(sign) && d != "" && AllDigits(d) && (rest == "" || !IsDigit(rest[0]))
    ensures ReadInt(sign + d + rest) == Some((if sign == "-" then -Value(d) else Value(d), rest))
  {
    var t := sign + d + rest;
    if sign == "" {
      assert t == d + rest;
      ReadDigits(d, rest);
    } else {
      assert t[1..] == d + rest && t[0] == sign[0];
      ReadAfterSign(t, d, rest);
    }
  }

  lemma ScanSigned(sign: string, d: string, rest: string, left: nat)
    requires Sign(sign) && d != "" && AllDigits(d) && rest != "" && rest[0] == ':' && left > 0
    ensures Scan(sign + d + rest, left) == [if sign == "-" then -Value(d) else Value(d)] + Scan(rest[1..], left - 1)
  {
    ReadSigned(sign, d, rest);
  }

  /** Where the first colon and the point are. */
  lemma ColonAt(first: string, rest: string, text: string)
    requires ':' !in first && text == first + ":" + rest
    ensures Find(text, ':', 0) == Some(|first|)
  {
    assert text[|first|] == ':' && forall k :: 0 <= k < |first| ==> text[k] == first[k];
  }

  lemma PointAt(first: string, middle: string, f: string, text: string)
    requires '.' !in middle && text == first + ":" + middle + ("." + f)
    ensures Fraction(text, |first|) == Some(f)
  {
    var dot := |first| + 1 + |middle|;
    assert text[dot] == '.' && text[dot + 1..] == f;
    assert forall k :: |first| < k < dot ==> text[k] == middle[k - |first| - 1];
  }

  lemma NoPoint(first: string, middle: string, text: string)
    requires '.' !in middle && text == first + ":" + middle
    ensures Fraction(text, |first|) == None
  {
    assert forall k :: |first| < k < |text| ==> text[k] == middle[k - |first| - 1];
  }

  lemma Separated(first: string, middle: string, f: Option<string>, text: string)
    requires ':' !in first && '.' !in middle && text == first + ":" + middle + Tail(f)
    ensures Find(text, ':', 0) == Some(|first|) && Fraction(text, |first|) == f
  {
    assert text == first + ":" + (middle + Tail(f));
    ColonAt(first, middle + Tail(f), text);
    if f.Some? {
      PointAt(first, middle, f.value, text);
    } else {
      assert text == first + ":" + middle;
      NoPoint(first, middle, text);
    }
  }

  /** Relative after a sign, backward after a minus; nothing is promised beyond an int. */
  function Meant(sign: string, total: Option<int>): Target {
    if total.None? then Undefined
    else if sign == "" then Timestamp(total.value)
    else Relative(if sign == "-" then -total.value else total.value)
  }

  /** The numbers in front of the point, and the digits behind it. */
  predicate Holds(text: string, sign: string, numbers: seq<int>, f: Option<string>, colon: nat) {
    'T' !in text && Scan(text, 3) == numbers && Find(text, ':', 0) == Some(colon) && Fraction(text, colon) == f
  }

  predicate StartsWith(text: string, sign: string) {
    Sign(sign) && text != "" && if sign == "" then IsDigit(text[0]) else text[0] == sign[0]
  }

  lemma FromParts(text: string, sign: string, numbers: seq<int>, f: Option<string>, colon: nat)
    requires Holds(text, sign, numbers, f, colon)
    ensures FromString(text) == FromNumbers(text, numbers, f)
  {
  }

  lemma NoLetters(sign: string, h: Option<string>, m: string, s: string, f: Option<string>)
    requires Sign(sign) && (h.Some? ==> AllDigits(h.value)) && AllDigits(m) && AllDigits(s) && (f.Some? ==> AllDigits(f.value))
    ensures 'T' !in sign + ClockText(h, m, s, f)
  {
    assert h.Some? ==> 'T' !in h.value;
    assert f.Some? ==> 'T' !in f.value;
    assert 'T' !in m && 'T' !in s;
  }

  lemma FractionRead(f: Option<string>)
    requires f.Some? ==> Number(f.value)
    ensures f.Some? ==> InInt(Atoi(f.value)) && Scaled(Atoi(f.value), |f.value|) == Thousandths(f)
  {
    if f.Some? {
      FractionIsTruncated(f.value);
    }
  }

  function Negated(sign: string, n: int): int {
    if sign == "-" then -n else n
  }

  lemma GroupShort(sign: string, m: string, s: string, tail: string, text: string)
    requires text == sign + (m + ":" + s + tail)
    ensures text == sign + m + (":" + (s + tail)) && text == (sign + m) + ":" + s + tail
  {
  }

  lemma GroupLong(sign: string, h: string, m: string, s: string, tail: string, text: string)
    requires text == sign + (h + ":" + m + ":" + s + tail)
    ensures text == sign + h + (":" + (m + (":" + (s + tail)))) && text == (sign + h) + ":" + (m + ":" + s) + tail
  {
  }

  lemma ScanShort(sign: string, m: string, s: string, tail: string, left: nat)
    requires Sign(sign) && m != "" && AllDigits(m) && s != "" && AllDigits(s) && left > 1
    requires tail == "" || (!IsDigit(tail[0]) && tail[0] != ':')
    ensures Scan(sign + m + (":" + (s + tail)), left) == [Negated(sign, Value(m)), Value(s)]
  {
    var rest := ":" + (s + tail);
    assert rest[1..] == s + tail;
    ScanSigned(sign, m, rest, left);
    ScanStep(s, tail, left - 1);
  }

  lemma ScanLong(sign: string, h: string, m: string, s: string, tail: string, left: nat)
    requires Sign(sign) && h != "" && AllDigits(h) && m != "" && AllDigits(m) && s != "" && AllDigits(s) && left > 2
    requires tail == "" || (!IsDigit(tail[0]) && tail[0] != ':')
    ensures Scan(sign + h + (":" + (m + (":" + (s + tail)))), left) == [Negated(sign, Value(h)), Value(m), Value(s)]
  {
    var afterM := ":" + (s + tail);
    var rest := ":" + (m + afterM);
    assert afterM[1..] == s + tail && rest[1..] == m + afterM;
    ScanSigned(sign, h, rest, left);
    ScanTwo(m, s, afterM, tail, left - 1);
  }

  lemma Starts(sign: string, d: string, rest: string, text: string)
    requires Sign(sign) && d != "" && AllDigits(d) && text == sign + d + rest
    ensures StartsWith(text, sign)
  {
    assert text[0] == if sign == "" then d[0] else sign[0];
  }

  lemma HoldsShort(sign: string, m: string, s: string, f: Option<string>, text: string)
    requires Sign(sign) && m != "" && AllDigits(m) && s != "" && AllDigits(s) && (f.Some? ==> AllDigits(f.value))
    requires text == sign + ClockText(None, m, s, f)
    ensures Holds(text, sign, [Negated(sign, Value(m)), Value(s)], f, |sign + m|) && StartsWith(text, sign)
  {
    GroupShort(sign, m, s, Tail(f), text);
    ScanShort(sign, m, s, Tail(f), 3);
    Separated(sign + m, s, f, text);
    NoLetters(sign, None, m, s, f);
    Starts(sign, m, ":" + (s + Tail(f)), text);
  }

  lemma NoneIn(a: string, b: string, c: char)
    requires AllDigits(a) && AllDigits(b) && (c == ':' || c == '.')
    ensures c !in a && c !in b && (c == '.' ==> c !in a + ":" + b)
  {
  }

  lemma LongFound(sign: string, h: string, m: string, s: string, f: Option<string>, text: string)
    requires Sign(sign) && AllDigits(h) && AllDigits(m) && AllDigits(s)
    requires text == (sign + h) + ":" + (m + ":" + s) + Tail(f)
    ensures Find(text, ':', 0) == Some(|sign + h|) && Fraction(text, |sign + h|) == f
  {
    NoneIn(h, h, ':');
    NoneIn(m, s, '.');
    Separated(sign + h, m + ":" + s, f, text);
  }

  lemma LongScanned(sign: string, h: string, m: string, s: string, tail: string, text: string)
    requires Sign(sign) && h != "" && AllDigits(h) && m != "" && AllDigits(m) && s != "" && AllDigits(s)
    requires tail == "" || (!IsDigit(tail[0]) && tail[0] != ':')
    requires text == sign + h + (":" + (m + (":" + (s + tail))))
    ensures Scan(text, 3) == [Negated(sign, Value(h)), Value(m), Value(s)] && StartsWith(text, sign)
  {
    ScanLong(sign, h, m, s, tail, 3);
    Starts(sign, h, ":" + (m + (":" + (s + tail))), text);
  }

  lemma HoldsLong(sign: string, h: string, m: string, s: string, f: Option<string>, text: string)
    requires Sign(sign) && h != "" && AllDigits(h) && m != "" && AllDigits(m) && s != "" && AllDigits(s)
    requires (f.Some? ==> AllDigits(f.value)) && text == sign + ClockText(Some(h), m, s, f)
    ensures Holds(text, sign, [Negated(sign, Value(h)), Value(m), Value(s)], f, |sign + h|) && StartsWith(text, sign)
  {
    NoLetters(sign, Some(h), m, s, f);
    GroupLong(sign, h, m, s, Tail(f), text);
    LongScanned(sign, h, m, s, Tail(f), text);
    LongFound(sign, h, m, s, f, text);
  }

  /** What a fraction adds, in milliseconds. */
  function Thousandths(f: Option<string>): int
    requires f.Some? ==> Number(f.value)
  {
    if f.Some? then Value((f.value + "000")[..3]) else 0
  }

  predicate Adds(f: Option<string>, mmm: int) {
    if f.Some? then InInt(Atoi(f.value)) && Scaled(Atoi(f.value), |f.value|) == mmm else mmm == 0
  }

  lemma MeansShort(text: string, sign: string, numbers: seq<int>, a: int, f: Option<string>, mmm: int)
    requires StartsWith(text, sign) && |numbers| == 2 && numbers[0] == Negated(sign, a)
    requires 0 <= a <= INT_MAX && 0 <= numbers[1] <= INT_MAX && Adds(f, mmm)
    ensures FromNumbers(text, numbers, f) == Meant(sign, AddedUp(0, a, numbers[1], mmm))
  {
  }

  lemma MeansLong(text: string, sign: string, numbers: seq<int>, a: int, f: Option<string>, mmm: int)
    requires StartsWith(text, sign) && |numbers| == 3 && numbers[0] == Negated(sign, a)
    requires 0 <= a <= INT_MAX && 0 <= numbers[1] <= INT_MAX && 0 <= numbers[2] <= INT_MAX && Adds(f, mmm)
    ensures FromNumbers(text, numbers, f) == Meant(sign, AddedUp(a, numbers[1], numbers[2], mmm))
  {
  }

  /**
    A time of digits means what it says, with hours or without, with a fraction or without; with a sign it is relative,
    backward after a minus.
   */
  lemma ReadsClock(sign: string, h: Option<string>, m: string, s: string, f: Option<string>)
    requires Sign(sign) && (h.Some? ==> Number(h.value)) && Number(m) && Number(s) && (f.Some? ==> Number(f.value))
    ensures FromString(sign + ClockText(h, m, s, f)) == Meant(sign, ClockTime(h, m, s, f))
  {
    var text := sign + ClockText(h, m, s, f);
    FractionRead(f);
    if h.Some? {
      var numbers := [Negated(sign, Value(h.value)), Value(m), Value(s)];
      HoldsLong(sign, h.value, m, s, f, text);
      FromParts(text, sign, numbers, f, |sign + h.value|);
      MeansLong(text, sign, numbers, Value(h.value), f, Thousandths(f));
    } else {
      var numbers := [Negated(sign, Value(m)), Value(s)];
      HoldsShort(sign, m, s, f, text);
      FromParts(text, sign, numbers, f, |sign + m|);
      MeansShort(text, sign, numbers, Value(m), f, Thousandths(f));
    }
  }

  /** A text of hours, minutes, seconds and a fraction, all of digits, means what it says. */
  lemma ReadsParts(h: string, m: string, s: string, f: string)
    requires Number(h) && Number(m) && Number(s) && Number(f)
    ensures var total := AddedUp(Value(h), Value(m), Value(s), Value((f + "000")[..3]));
      FromString(Text(h, m, s, f)) == if total.None? then Undefined else Timestamp(total.value)
  {
    assert Text(h, m, s, f) == "" + ClockText(Some(h), m, s, Some(f));
    ReadsClock("", Some(h), m, s, Some(f));
  }

  /** The numbers of a time add up to it, exactly as far as the sum fits an int. */
  lemma PartsOfTime(h: nat, m: nat, s: nat, f: nat)
    ensures var ms := ((h * 60 + m) * 60 + s) * 1000 + f; AddedUp(h, m, s, f) == if ms <= INT_MAX then Some(ms) else None
  {
  }

  /** Parsing what was printed gives the same time back, exactly as far as an int reaches. */
  lemma HmsRoundTrip(ms: nat)
    ensures FromString(Hms(ms)) == if ms <= INT_MAX then Timestamp(ms) else Undefined
  {
    var h, belowHour := ms / 3_600_000, ms % 3_600_000;
    var m, belowMinute := belowHour / 60_000, belowHour % 60_000;
    var s, f := belowMinute / 1000, belowMinute % 1000;
    PrintedValue(h, 2);
    PrintedValue(m, 2);
    PrintedValue(s, 2);
    PrintedValue(f, 3);
    DecimalValue(f);
    var fraction := Padded(Decimal(f), 3);
    assert (fraction + "000")[..3] == fraction;
    PartsOfTime(h, m, s, f);
    if h <= INT_MAX {
      ReadsParts(Padded(Decimal(h), 2), Padded(Decimal(m), 2), Padded(Decimal(s), 2), fraction);
    } else {
      HoursOutOfRange(Padded(Decimal(h), 2), Padded(Decimal(m), 2), Padded(Decimal(s), 2), fraction);
    }
  }

  lemma OutOfRange(text: string, numbers: seq<int>, f: Option<string>, colon: nat)
    requires Holds(text, "", numbers, f, colon) && numbers != [] && numbers[0] > INT_MAX
    ensures FromString(text) == Undefined
  {
  }

  lemma HoursOutOfRange(h: string, m: string, s: string, f: string)
    requires h != "" && AllDigits(h) && Value(h) > INT_MAX && Number(m) && Number(s) && AllDigits(f)
    ensures FromString(Text(h, m, s, f)) == Undefined
  {
    var text := Text(h, m, s, f);
    assert text == "" + ClockText(Some(h), m, s, Some(f));
    HoldsLong("", h, m, s, Some(f), text);
    OutOfRange(text, [Negated("", Value(h)), Value(m), Value(s)], Some(f), |"" + h|);
  }

  /** White space in front of a number does not count. */
  lemma {:induction false} SpacesSkipped(spaces: string, s: string)
    requires forall k :: 0 <= k < |spaces| ==> spaces[k] == ' ' || 9 <= spaces[k] as int <= 13
    ensures Atoi(spaces + s) == Atoi(s)
  {
    if spaces == "" {
      assert spaces + s == s;
    } else {
      SpacesSkipped(spaces[1..], s);
      assert (spaces + s)[1..] == spaces[1..] + s && IsSpace(spaces[0]);
    }
  }
}
