/** `generateGameId` of the colour-trading page: the year, then month, day,
    hour and minute padded to two digits, then a two-digit random suffix.
    The clock and the `Math.random()` draw are parameters. */
module GameId {

  predicate IsDigit(c: char) { '0' <= c <= '9' }

  predicate AllDigits(s: string) { forall i :: 0 <= i < |s| ==> IsDigit(s[i]) }

  function DigitChar(d: nat): (c: char)
    requires d <= 9
    ensures IsDigit(c) && c as int - '0' as int == d
  {
    ('0' as int + d) as char
  }

  /** `n.toString()` for a non-negative integer. */
  function Decimal(n: nat): (s: string)
    ensures |s| >= 1 && AllDigits(s)
    ensures n < 10 <==> |s| == 1
  {
    if n < 10 then [DigitChar(n)] else Decimal(n / 10) + [DigitChar(n % 10)]
  }

  /** Reads a string of digits back as a number (leading zeros allowed). */
  function ParseDecimal(s: string): nat
    requires AllDigits(s)
  {
    if s == [] then 0 else ParseDecimal(s[..|s| - 1]) * 10 + (s[|s| - 1] as int - '0' as int)
  }

  /** `toString()` followed by `padStart(2, '0')`. */
  function Pad2(n: nat): (s: string)
    ensures n < 100 ==> |s| == 2
    ensures AllDigits(s)
  {
    var d := Decimal(n);
    if |d| < 2 then "0" + d else d
  }

  lemma {:induction false} ParseDecimalInverts(n: nat)
    ensures ParseDecimal(Decimal(n)) == n
  {
    if n >= 10 {
      var d := Decimal(n);
      assert d[..|d| - 1] == Decimal(n / 10);
      ParseDecimalInverts(n / 10);
    }
  }

  lemma {:induction false} ParsePad2(n: nat)
    requires n < 100
    ensures ParseDecimal(Pad2(n)) == n
  {
    ParseDecimalInverts(n);
    if n < 10 {
      var p := Pad2(n);
      assert p[..1] == "0";
      assert p[..1][..0] == [];
    }
  }

  /** Four-digit years print as four characters. */
  lemma {:induction false} DecimalOfYear(n: nat)
    requires 1000 <= n <= 9999
    ensures |Decimal(n)| == 4
  {
    assert |Decimal(n / 1000)| == 1;
    assert Decimal(n / 100) == Decimal(n / 1000) + [DigitChar(n / 100 % 10)];
    assert Decimal(n / 10) == Decimal(n / 100) + [DigitChar(n / 10 % 10)];
  }

  /** What `new Date()` reports: `getMonth()` is 0-based. */
  datatype Moment = Moment(year: nat, month: nat, date: nat, hours: nat, minutes: nat)

  predicate ValidMoment(m: Moment)
  {
    1000 <= m.year <= 9999 && m.month <= 11 && 1 <= m.date <= 31 && m.hours <= 23 && m.minutes <= 59
  }

  /** `Math.floor(Math.random() * 100)`. */
  function Suffix(draw: real): (r: nat)
    requires 0.0 <= draw < 1.0
    ensures r < 100
  {
    (draw * 100.0).Floor
  }

  function Generate(now: Moment, draw: real): (id: string)
    requires 0.0 <= draw < 1.0
    ensures AllDigits(id) && |Decimal(now.year)| <= |id|
    ensures ValidMoment(now) ==> |id| == |Decimal(now.year)| + 10
    ensures id[..|Decimal(now.year)|] == Decimal(now.year)
  {
    Decimal(now.year) + Pad2(now.month + 1) + Pad2(now.date) + Pad2(now.hours)
      + Pad2(now.minutes) + Pad2(Suffix(draw))
  }

  /** `gameId.slice(-10)`: the last ten characters, or all of a shorter id. */
  function LastTen(id: string): (r: string)
    ensures |r| == if |id| <= 10 then |id| else 10
    ensures id == id[..|id| - |r|] + r
  {
    if |id| <= 10 then id else id[|id| - 10..]
  }

  /** A game id is fourteen digits, and each field reads back as the clock
      value (month 1-based) and the random suffix it was made from. */
  lemma GenerateDecodes(now: Moment, draw: real)
    requires ValidMoment(now) && 0.0 <= draw < 1.0
    ensures var id := Generate(now, draw);
      && |id| == 14 && AllDigits(id)
      && ParseDecimal(id[..4]) == now.year
      && ParseDecimal(id[4..6]) == now.month + 1
      && ParseDecimal(id[6..8]) == now.date
      && ParseDecimal(id[8..10]) == now.hours
      && ParseDecimal(id[10..12]) == now.minutes
      && ParseDecimal(id[12..]) == Suffix(draw)
  {
    var id := Generate(now, draw);
    DecimalOfYear(now.year);
    ParseDecimalInverts(now.year);
    ParsePad2(now.month + 1);
    ParsePad2(now.date);
    ParsePad2(now.hours);
    ParsePad2(now.minutes);
    ParsePad2(Suffix(draw));
    assert id[..4] == Decimal(now.year);
    assert id[4..6] == Pad2(now.month + 1);
    assert id[6..8] == Pad2(now.date);
    assert id[8..10] == Pad2(now.hours);
    assert id[10..12] == Pad2(now.minutes);
    assert id[12..] == Pad2(Suffix(draw));
  }

  /** The history label `slice(-10)` of a game id drops exactly the year. */
  lemma HistoryLabelDropsYear(now: Moment, draw: real)
    requires ValidMoment(now) && 0.0 <= draw < 1.0
    ensures LastTen(Generate(now, draw)) == Generate(now, draw)[4..]
  {
    GenerateDecodes(now, draw);
  }
}
