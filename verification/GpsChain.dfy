/**
 * One link of the GPS evidence chain: the text that is signed for a location point. Coordinates are
 * whole numbers of 1e-7 degrees, the precision Round7 keeps, and the time that is signed is in whole Unix milliseconds.
 */
module GpsChain {

  const GENESIS_HASH := "genesis"

  /** What PointHash signs. */
  datatype Message = Message(prev: string, shift: string, seqNo: int, lat: int, lng: int, at: int, mock: bool)

  // ---- number formats ----

  function Digit(d: nat): (c: char)
    requires d < 10
    ensures '0' <= c <= '9'
  {
    '0' + d as char
  }

  /** %d of a natural number. */
  function Digits(n: nat): string {
    if n < 10 then [Digit(n)] else Digits(n / 10) + [Digit(n % 10)]
  }

  /** %d */
  function Decimal(n: int): string {
    if n < 0 then "-" + Digits(-n) else Digits(n)
  }

  /** n with leading zeros up to `width` digits. */
  function Padded(n: nat, width: nat): string {
    if width == 0 then "" else Padded(n / 10, width - 1) + [Digit(n % 10)]
  }

  const DEGREE := 10_000_000

  /** %.7f of a coordinate. */
  function Fixed(x: int): string {
    if x < 0 then "-" + Unsigned(-x) else Unsigned(x)
  }

  function Unsigned(x: nat): string {
    Digits(x / DEGREE) + "." + Padded(x % DEGREE, 7)
  }

  /** %t */
  function Truth(b: bool): string {
    if b then "true" else "false"
  }

  function Text(m: Message): string {
    m.prev + "|" + m.shift + "|" + Decimal(m.seqNo) + "|" + Fixed(m.lat) + "|" + Fixed(m.lng) + "|" + Decimal(m.at)
      + "|" + Truth(m.mock)
  }

  // ---- the formats can be read back ----

  function Value(s: string): nat {
    if s == [] then 0
    else 10 * Value(s[..|s| - 1]) + if '0' <= s[|s| - 1] <= '9' then (s[|s| - 1] - '0') as nat else 0
  }

  predicate Plain(s: string) {
    forall i :: 0 <= i < |s| ==> '0' <= s[i] <= '9'
  }

  lemma {:induction false} DigitsReadBack(n: nat)
    ensures Value(Digits(n)) == n && Plain(Digits(n)) && |Digits(n)| > 0
  {
    hide Value, Plain, Digit;
    if n < 10 {
      OneMoreDigit([], n);
      assert [] + [Digit(n)] == [Digit(n)];
    } else {
      DigitsReadBack(n / 10);
      OneMoreDigit(Digits(n / 10), n % 10);
    }
  }

  lemma OneMoreDigit(s: string, d: nat)
    requires d < 10
    ensures Value(s + [Digit(d)]) == 10 * Value(s) + d
    ensures Plain(s) ==> Plain(s + [Digit(d)])
    ensures Value([]) == 0 && Plain([])
  {
    assert (s + [Digit(d)])[..|s|] == s;
  }

  function PowerOfTen(k: nat): (p: nat)
    ensures p > 0
  {
    if k == 0 then 1 else 10 * PowerOfTen(k - 1)
  }

  lemma {:induction false} PaddedReadsBack(n: nat, width: nat)
    requires n < PowerOfTen(width)
    ensures Value(Padded(n, width)) == n && |Padded(n, width)| == width && Plain(Padded(n, width))
  {
    hide Value, Plain, Digit;
    OneMoreDigit(if width == 0 then [] else Padded(n / 10, width - 1), n % 10);
    if width > 0 {
      PaddedReadsBack(n / 10, width - 1);
    }
  }

  lemma DecimalIsInjective(m: int, n: int)
    requires Decimal(m) == Decimal(n)
    ensures m == n
  {
    DigitsReadBack(if m < 0 then -m else m);
    DigitsReadBack(if n < 0 then -n else n);
    SignsAgree(Digits(if m < 0 then -m else m), m < 0, Digits(if n < 0 then -n else n), n < 0);
  }

  /** A minus sign cannot be taken for a digit. */
  lemma SignsAgree(a: string, negA: bool, b: string, negB: bool)
    requires |a| > 0 && |b| > 0 && '0' <= a[0] <= '9' && '0' <= b[0] <= '9'
    requires (if negA then "-" + a else a) == (if negB then "-" + b else b)
    ensures negA == negB && a == b
  {
    assert negA ==> ("-" + a)[0] == '-' && ("-" + a)[1..] == a;
    assert negB ==> ("-" + b)[0] == '-' && ("-" + b)[1..] == b;
  }

  lemma UnsignedIsInjective(x: nat, y: nat)
    requires Unsigned(x) == Unsigned(y)
    ensures x == y
  {
    DigitsReadBack(x / DEGREE);
    DigitsReadBack(y / DEGREE);
    assert PowerOfTen(7) == DEGREE by { SevenDigits(); }
    PaddedReadsBack(x % DEGREE, 7);
    PaddedReadsBack(y % DEGREE, 7);
    SplitLast(Digits(x / DEGREE), Padded(x % DEGREE, 7), Digits(y / DEGREE), Padded(y % DEGREE, 7), '.');
  }

  lemma SevenDigits()
    ensures PowerOfTen(7) == DEGREE
  {
    assert PowerOfTen(3) == 1000;
    assert PowerOfTen(5) == 100_000;
  }

  lemma FixedIsInjective(x: int, y: int)
    requires Fixed(x) == Fixed(y)
    ensures x == y
  {
    DigitsReadBack((if x < 0 then -x else x) / DEGREE);
    DigitsReadBack((if y < 0 then -y else y) / DEGREE);
    SignsAgree(Unsigned(if x < 0 then -x else x), x < 0, Unsigned(if y < 0 then -y else y), y < 0);
    UnsignedIsInjective(if x < 0 then -x else x, if y < 0 then -y else y);
  }

  // ---- what the signed text looks like ----

  /** n written in decimal, without leading zeros. */
  predicate Writes(t: string, n: nat) {
    Plain(t) && Value(t) == n && (|t| == 1 || (|t| > 1 && t[0] != '0'))
  }

  predicate WritesSigned(t: string, n: int) {
    if n < 0 then |t| > 0 && t[0] == '-' && Writes(t[1..], -n) else Writes(t, n)
  }

  /** x ten-millionths in decimal, with seven places after the point. */
  ghost predicate WritesFixed(t: string, x: int) {
    if x < 0 then |t| > 0 && t[0] == '-' && WritesPlaces(t[1..], -x) else WritesPlaces(t, x)
  }

  ghost predicate WritesPlaces(t: string, x: nat) {
    |t| >= 9 && var whole, places := t[..|t| - 8], t[|t| - 7..];
    && t[|t| - 8] == '.' && Plain(places)
    && exists n: nat :: Writes(whole, n) && n * 10_000_000 + Value(places) == x
  }

  lemma {:induction false} DigitsWrite(n: nat)
    ensures Writes(Digits(n), n)
  {
    DigitsReadBack(n);
    if n >= 10 {
      DigitsWrite(n / 10);
      NoLeadingZero(n / 10);
      assert Digits(n)[0] == Digits(n / 10)[0];
    }
  }

  lemma {:induction false} NoLeadingZero(n: nat)
    requires n > 0
    ensures |Digits(n)| > 0 && Digits(n)[0] != '0'
  {
    if n >= 10 {
      NoLeadingZero(n / 10);
    }
  }

  lemma PlacesAreWritten(x: nat)
    ensures WritesPlaces(Unsigned(x), x)
  {
    DigitsWrite(x / DEGREE);
    SevenDigits();
    PaddedReadsBack(x % DEGREE, 7);
    DigitsReadBack(x / DEGREE);
    var t := Unsigned(x);
    assert t[..|t| - 8] == Digits(x / DEGREE) && t[|t| - 7..] == Padded(x % DEGREE, 7);
    assert (x / DEGREE) * 10_000_000 + x % DEGREE == x;
  }

  lemma NumbersAreWritten(n: int)
    ensures WritesSigned(Decimal(n), n) && WritesFixed(Fixed(n), n)
  {
    hide Digits, Unsigned, Writes, WritesPlaces;
    var m := if n < 0 then -n else n;
    DigitsWrite(m);
    PlacesAreWritten(m);
    assert ("-" + Digits(m))[1..] == Digits(m) && ("-" + Unsigned(m))[1..] == Unsigned(m);
  }

  /**
   * The signed text: the hash before, the shift, sequence number, latitude, longitude, time and mock flag, in this
   * order and with bars between them; numbers without leading zeros, coordinates with seven places.
   */
  lemma TextLayout(m: Message) returns (seqNo: string, lat: string, lng: string, at: string)
    ensures WritesSigned(seqNo, m.seqNo) && WritesFixed(lat, m.lat) && WritesFixed(lng, m.lng)
    ensures WritesSigned(at, m.at)
    ensures Text(m) == m.prev + "|" + m.shift + "|" + seqNo + "|" + lat + "|" + lng + "|" + at
                       + if m.mock then "|true" else "|false"
  {
    hide WritesSigned, WritesFixed, Decimal, Fixed;
    seqNo, lat, lng, at := Decimal(m.seqNo), Fixed(m.lat), Fixed(m.lng), Decimal(m.at);
    NumbersAreWritten(m.seqNo);
    NumbersAreWritten(m.lat);
    NumbersAreWritten(m.lng);
    NumbersAreWritten(m.at);
  }

  // ---- the fields can be told apart ----

  /** Text after the last separator determines where that separator is. */
  lemma SplitLast(a: string, b: string, a': string, b': string, sep: char)
    requires a + [sep] + b == a' + [sep] + b'
    requires sep !in b && sep !in b'
    ensures a == a' && b == b'
  {
    var s := a + [sep] + b;
    assert s[|a|] == sep && s[|a'|] == sep;
    assert forall i :: |a| < i < |s| ==> s[i] == b[i - |a| - 1];
    assert forall i :: |a'| < i < |s| ==> s[i] == b'[i - |a'| - 1];
    assert |a| == |a'|;
    assert s[..|a|] == a == a';
    assert s[|a| + 1..] == b == b';
  }

  lemma NumbersHaveNoBar(n: int)
    ensures '|' !in Decimal(n) && '|' !in Fixed(n)
  {
    var m := if n < 0 then -n else n;
    DigitsReadBack(m);
    DigitsReadBack(m / DEGREE);
    SevenDigits();
    PaddedReadsBack(m % DEGREE, 7);
  }

  /** Two points with the same signed text agree on every signed field, whatever the stored previous hash looks like. */
  lemma TextIsInjective(m: Message, n: Message)
    requires Text(m) == Text(n) && '|' !in m.shift && '|' !in n.shift
    ensures m == n
  {
    NumbersHaveNoBar(m.seqNo); NumbersHaveNoBar(m.lat); NumbersHaveNoBar(m.lng); NumbersHaveNoBar(m.at);
    NumbersHaveNoBar(n.seqNo); NumbersHaveNoBar(n.lat); NumbersHaveNoBar(n.lng); NumbersHaveNoBar(n.at);
    hide Digits, Padded, Decimal, Fixed, Unsigned;
    var (m1, n1) := (m.prev + "|" + m.shift, n.prev + "|" + n.shift);
    var (m2, n2) := (m1 + "|" + Decimal(m.seqNo), n1 + "|" + Decimal(n.seqNo));
    var (m3, n3) := (m2 + "|" + Fixed(m.lat), n2 + "|" + Fixed(n.lat));
    var (m4, n4) := (m3 + "|" + Fixed(m.lng), n3 + "|" + Fixed(n.lng));
    var (m5, n5) := (m4 + "|" + Decimal(m.at), n4 + "|" + Decimal(n.at));
    SplitLast(m5, Truth(m.mock), n5, Truth(n.mock), '|');
    SplitLast(m4, Decimal(m.at), n4, Decimal(n.at), '|');
    SplitLast(m3, Fixed(m.lng), n3, Fixed(n.lng), '|');
    SplitLast(m2, Fixed(m.lat), n2, Fixed(n.lat), '|');
    SplitLast(m1, Decimal(m.seqNo), n1, Decimal(n.seqNo), '|');
    SplitLast(m.prev, m.shift, n.prev, n.shift, '|');
    DecimalIsInjective(m.seqNo, n.seqNo);
    FixedIsInjective(m.lat, n.lat);
    FixedIsInjective(m.lng, n.lng);
    DecimalIsInjective(m.at, n.at);
  }

  // ---- the signature ----

  /**
   * HMAC-SHA256 under the service's key (section 2 of RFC 2104), idealised: different texts get different
   * signatures, and a signature is never empty.
   */
  ghost predicate Ideal(mac: string -> string) {
    && (forall s, t :: mac(s) == mac(t) ==> s == t)
    && (forall s :: mac(s) != "")
  }

  lemma IdealIsPossible()
    ensures exists mac :: Ideal(mac)
  {
    var mac := (s: string) => "#" + s;
    forall s, t | mac(s) == mac(t) ensures s == t {
      assert s == mac(s)[1..] == mac(t)[1..] == t;
    }
    assert Ideal(mac);
  }

  function PointHash(mac: string -> string, m: Message): string {
    mac(Text(m))
  }

  lemma PointHashIsInjective(mac: string -> string, m: Message, n: Message)
    requires Ideal(mac) && '|' !in m.shift && '|' !in n.shift
    requires PointHash(mac, m) == PointHash(mac, n)
    ensures m == n
  {
    hide Text;
    assert mac(Text(m)) == mac(Text(n));
    TextIsInjective(m, n);
  }
}
