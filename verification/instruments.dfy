/** Option instrument names, `<underlying>-<DDMMMYY>-<strike>-<C|P>` such as
    "BTC-25JUN21-40000-C", and the way the hedger takes them apart by index
    arithmetic (hedger.py, determine_option_delta). */
module Instruments {
  import opened Outcomes
  import opened PyText

  datatype OptionKind = Call | Put

  /** An expiry date; the time of day is always 08:00 UTC. */
  datatype Expiry = Expiry(year: int, month: int, day: int)

  datatype OptionContract = OptionContract(kind: OptionKind, expiry: Expiry, strike: int)

  /** The month table of the hedger. */
  const Months: map<string, int> := map[
    "JAN" := 1, "FEB" := 2, "MAR" := 3, "APR" := 4, "MAY" := 5, "JUN" := 6,
    "JUL" := 7, "AUG" := 8, "SEP" := 9, "OCT" := 10, "NOV" := 11, "DEC" := 12]

  /** The three-letter code of each month, January first. */
  const MonthCodes: seq<string> := [
    "JAN", "FEB", "MAR", "APR", "MAY", "JUN", "JUL", "AUG", "SEP", "OCT", "NOV", "DEC"]

  predicate IsLeapYear(y: int) {
    (y % 4 == 0 && y % 100 != 0) || y % 400 == 0
  }

  function DaysInMonth(y: int, m: int): int
    requires 1 <= m <= 12
  {
    if m == 2 then (if IsLeapYear(y) then 29 else 28)
    else if m == 4 || m == 6 || m == 9 || m == 11 then 30
    else 31
  }

  /** What `datetime(year, month, day, 8, 0, 0, 0, UTC)` accepts. */
  predicate IsDate(y: int, m: int, d: int) {
    1 <= y <= 9999 && 1 <= m <= 12 && 1 <= d <= DaysInMonth(y, m)
  }

  /** Names the hedger treats as options: the last character is 'P' or 'C'. */
  predicate IsOptionName(name: string) {
    |name| > 0 && (name[|name| - 1] == 'P' || name[|name| - 1] == 'C')
  }

  /** The year of an expiry text `DDMMMYY`. `twoDigits` reads `int(exp[-2:])`,
      the year the text means; otherwise it reads `int(exp[-2])`, as the
      hedger does, which is the tens digit alone. */
  function ExpiryYear(exp: string, twoDigits: bool): (r: Result<int>)
    ensures r.Ok? ==> 2000 <= r.value
    ensures r.Ok? && !twoDigits ==> r.value <= 2009
    ensures r.Ok? && twoDigits ==> r.value <= 2099
  {
    if twoDigits then
      var t := Slice(exp, -2, |exp|);
      var y :- Int(t);
      ShortNumeral(t);
      Ok(y + 2000)
    else
      var c :- At(exp, -2);
      var y :- Int([c]);
      ShortNumeral([c]);
      Ok(y + 2000)
  }

  /** A numeral of at most two digits is below 100, of one digit below 10. */
  lemma ShortNumeral(s: string)
    requires |s| <= 2
    ensures |s| > 0 && AllDigits(s) ==> Int(s).value < 100
    ensures |s| == 1 && AllDigits(s) ==> Int(s).value < 10
  {
    if |s| > 0 && AllDigits(s) {
      var p := s[..|s| - 1];
      assert AllDigits(p);
      if |p| == 1 {
        assert p[..0] == [];
        assert DigitsValue(p) == DigitValue(p[0]);
      }
      assert DigitsValue(s) == DigitsValue(p) * 10 + DigitValue(s[|s| - 1]);
    }
  }

  /** The hedger's parse of an option name: type = last character, expiry =
      text between the first and second '-', strike = integer between the
      second and third '-', day = exp[:-5], month = table[exp[-5:-2]]; the
      faults are the ones Python raises on the way, in the same order. A type
      other than 'C' or 'P' passes the parse and is refused by the pricing
      step that follows it, reported here as a ValueError. */
  function ParseOptionName(name: string, twoDigitYear: bool): (r: Result<OptionContract>)
    ensures |name| == 0 ==> r == Err(IndexError)
    ensures r.Ok? ==> IsOptionName(name)
    ensures r.Ok? ==> IsDate(r.value.expiry.year, r.value.expiry.month, r.value.expiry.day)
    ensures r.Ok? ==> (r.value.kind == Call <==> name[|name| - 1] == 'C')
    ensures r.Ok? ==> r.value.strike >= 0
  {
    var typ :- At(name, -1);
    var first := Find(name, '-', 0);
    var second := Find(name, '-', first + 1);
    var third := Find(name, '-', second + 1);
    var exp := Slice(name, first + 1, second);
    var strike :- Int(Slice(name, second + 1, third));
    var year :- ExpiryYear(exp, twoDigitYear);
    var monthText := Slice(exp, -5, -2);
    var month :- if monthText in Months then Ok(Months[monthText]) else Err(KeyError(monthText));
    var day :- Int(Slice(exp, 0, -5));
    Assemble(typ, year, month, day, strike)
  }

  /** The last step of the parse: `datetime(year, month, day)` refuses a date
      that does not exist, and the pricer refuses an unknown option type. */
  function Assemble(typ: char, year: int, month: int, day: int, strike: int): (r: Result<OptionContract>)
    ensures r.Ok? <==> IsDate(year, month, day) && (typ == 'C' || typ == 'P')
    ensures r.Ok? ==> r.value.expiry == Expiry(year, month, day) && r.value.strike == strike
    ensures r.Ok? ==> (r.value.kind == Call <==> typ == 'C')
    ensures !IsDate(year, month, day) ==> r == Err(ValueError("day is out of range for month"))
  {
    if !IsDate(year, month, day) then Err(ValueError("day is out of range for month"))
    else if typ != 'C' && typ != 'P' then Err(ValueError("option type"))
    else Ok(OptionContract(if typ == 'C' then Call else Put, Expiry(year, month, day), strike))
  }

  /** A listed name reaches the last step with its own type, month, day and
      strike, and the year the chosen reading takes from its expiry text. */
  lemma ListedNameParts(underlying: string, c: OptionContract, twoDigitYear: bool)
    requires NoDash(underlying) && Listable(c)
    ensures IsOptionName(OptionName(underlying, c))
    ensures ExpiryYear(ExpiryText(c.expiry), twoDigitYear).Ok?
    ensures ParseOptionName(OptionName(underlying, c), twoDigitYear)
      == Assemble(KindChar(c.kind), ExpiryYear(ExpiryText(c.expiry), twoDigitYear).value,
                  c.expiry.month, c.expiry.day, c.strike)
  {
    var k := Decimal(c.strike);
    ExpiryFields(c.expiry);
    DigitsAreNotSeparators(k, '-');
    SplitDashed(underlying, ExpiryText(c.expiry), k, KindChar(c.kind));
    IntOfDecimal(c.strike);
  }

  // ---------------------------------------------------------------------
  // Printing a name, and reading it back

  /** Two decimal digits, with a leading zero. */
  function TwoDigits(n: nat): (s: string)
    requires n < 100
    ensures |s| == 2 && AllDigits(s)
  {
    [DigitChar(n / 10), DigitChar(n % 10)]
  }

  function KindChar(k: OptionKind): char {
    if k == Call then 'C' else 'P'
  }

  /** The contracts the venue lists and the name format can express. */
  predicate Listable(c: OptionContract) {
    && 2000 <= c.expiry.year <= 2099
    && IsDate(c.expiry.year, c.expiry.month, c.expiry.day)
    && c.strike >= 0
  }

  /** The expiry text `DDMMMYY`, day without a leading zero. */
  function ExpiryText(e: Expiry): string
    requires 2000 <= e.year <= 2099 && 1 <= e.month <= 12 && e.day >= 0
  {
    Decimal(e.day) + MonthCodes[e.month - 1] + TwoDigits(e.year - 2000)
  }

  /** The venue's name of an option on `underlying`. */
  function OptionName(underlying: string, c: OptionContract): string
    requires Listable(c)
  {
    underlying + "-" + ExpiryText(c.expiry) + "-" + Decimal(c.strike) + "-" + [KindChar(c.kind)]
  }

  predicate NoDash(s: string) {
    forall i :: 0 <= i < |s| ==> s[i] != '-'
  }

  lemma FindAt(s: string, start: nat, i: nat)
    requires start <= i < |s| && s[i] == '-'
    requires forall j :: start <= j < i ==> s[j] != '-'
    ensures Find(s, '-', start) == i
  {
  }

  /** The three '-' of a name `u-exp-k-t` are found where they are, and the
      slices between them give back the parts. */
  lemma SplitDashed(u: string, exp: string, k: string, t: char)
    requires NoDash(u) && NoDash(exp) && NoDash(k)
    ensures var name := u + "-" + exp + "-" + k + "-" + [t];
      var first := Find(name, '-', 0);
      var second := Find(name, '-', first + 1);
      var third := Find(name, '-', second + 1);
      && first == |u|
      && second == |u| + 1 + |exp|
      && third == |u| + 2 + |exp| + |k|
      && Slice(name, first + 1, second) == exp
      && Slice(name, second + 1, third) == k
      && At(name, -1) == Ok(t)
  {
    FirstDash(u, exp, k, t);
    SecondDash(u, exp, k, t);
    ThirdDash(u, exp, k, t);
    var name := u + "-" + exp + "-" + k + "-" + [t];
    assert name[|name| - 1] == t;
  }

  /** The first '-' of a name `u-exp-k-t` ends the underlying. */
  lemma FirstDash(u: string, exp: string, k: string, t: char)
    requires NoDash(u)
    ensures Find(u + "-" + exp + "-" + k + "-" + [t], '-', 0) == |u|
  {
    var name := u + "-" + exp + "-" + k + "-" + [t];
    assert forall j :: 0 <= j < |u| ==> name[j] == u[j];
    FindAt(name, 0, |u|);
  }

  /** The second '-' ends the expiry text, which lies between the first two. */
  lemma SecondDash(u: string, exp: string, k: string, t: char)
    requires NoDash(exp)
    ensures var name := u + "-" + exp + "-" + k + "-" + [t];
      && Find(name, '-', |u| + 1) == |u| + 1 + |exp|
      && Slice(name, |u| + 1, |u| + 1 + |exp|) == exp
  {
    var name := u + "-" + exp + "-" + k + "-" + [t];
    var a := |u|;
    assert forall j :: a < j < a + 1 + |exp| ==> name[j] == exp[j - a - 1];
    FindAt(name, a + 1, a + 1 + |exp|);
    assert name[a + 1..a + 1 + |exp|] == exp;
  }

  /** The third '-' ends the strike, which lies between the second and it. */
  lemma ThirdDash(u: string, exp: string, k: string, t: char)
    requires NoDash(k)
    ensures var name := u + "-" + exp + "-" + k + "-" + [t];
      && Find(name, '-', |u| + 2 + |exp|) == |u| + 2 + |exp| + |k|
      && Slice(name, |u| + 2 + |exp|, |u| + 2 + |exp| + |k|) == k
  {
    var name := u + "-" + exp + "-" + k + "-" + [t];
    var b := |u| + 1 + |exp|;
    assert forall j :: b < j < b + 1 + |k| ==> name[j] == k[j - b - 1];
    FindAt(name, b + 1, b + 1 + |k|);
    assert name[b + 1..b + 1 + |k|] == k;
  }

  /** The slices the parser takes of a text `d + code + yy`, with a
      three-letter code and a two-letter year. */
  lemma SplitExpiry(d: string, code: string, yy: string)
    requires |code| == 3 && |yy| == 2
    ensures var exp := d + code + yy;
      && Slice(exp, -2, |exp|) == yy
      && At(exp, -2) == Ok(yy[0])
      && Slice(exp, -5, -2) == code
      && Slice(exp, 0, -5) == d
  {
    var exp := d + code + yy;
    assert exp[|exp| - 2..] == yy;
    assert exp[|exp| - 5..|exp| - 2] == code;
    assert exp[..|exp| - 5] == d;
  }

  lemma ExpiryTextParts(e: Expiry)
    requires 2000 <= e.year <= 2099 && 1 <= e.month <= 12 && e.day >= 0
    ensures var exp := ExpiryText(e);
      && NoDash(exp)
      && Slice(exp, -2, |exp|) == TwoDigits(e.year - 2000)
      && At(exp, -2) == Ok(TwoDigits(e.year - 2000)[0])
      && Slice(exp, -5, -2) == MonthCodes[e.month - 1]
      && Slice(exp, 0, -5) == Decimal(e.day)
  {
    var d := Decimal(e.day);
    var code := MonthCodes[e.month - 1];
    var yy := TwoDigits(e.year - 2000);
    MonthCodesWellFormed();
    SplitExpiry(d, code, yy);
    DigitsAreNotSeparators(d, '-');
    DigitsAreNotSeparators(yy, '-');
    NoDashConcat(d, code);
    NoDashConcat(d + code, yy);
  }

  lemma MonthCodesWellFormed()
    ensures forall i :: 0 <= i < 12 ==> |MonthCodes[i]| == 3 && NoDash(MonthCodes[i])
  {
    forall i | 0 <= i < 12 ensures |MonthCodes[i]| == 3 && NoDash(MonthCodes[i]) {
      var code := MonthCodes[i];
      assert code[0] != '-' && code[1] != '-' && code[2] != '-';
    }
  }

  lemma NoDashConcat(a: string, b: string)
    requires NoDash(a) && NoDash(b)
    ensures NoDash(a + b)
  {
    assert forall i :: 0 <= i < |a| ==> (a + b)[i] == a[i];
    assert forall i :: |a| <= i < |a + b| ==> (a + b)[i] == b[i - |a|];
  }

  lemma TwoDigitsValue(n: nat)
    requires n < 100
    ensures Int(TwoDigits(n)) == Ok(n)
    ensures Int([TwoDigits(n)[0]]) == Ok(n / 10)
  {
    var s := TwoDigits(n);
    assert s[..1] == [s[0]];
    assert [s[0]][..0] == [];
    assert DigitsValue([s[0]]) == n / 10;
    assert DigitsValue(s) == DigitsValue(s[..1]) * 10 + DigitValue(s[1]);
  }

  lemma MonthCodeLookup(m: int)
    requires 1 <= m <= 12
    ensures MonthCodes[m - 1] in Months && Months[MonthCodes[m - 1]] == m
  {
  }

  /** What the parser reads from the expiry text of a valid date: the year
      under both readings, the month through the table, and the day. */
  lemma ExpiryFields(e: Expiry)
    requires 2000 <= e.year <= 2099 && 1 <= e.month <= 12 && e.day >= 0
    ensures var exp := ExpiryText(e);
      && NoDash(exp)
      && ExpiryYear(exp, true) == Ok(e.year)
      && ExpiryYear(exp, false) == Ok(2000 + (e.year - 2000) / 10)
      && Slice(exp, -5, -2) in Months && Months[Slice(exp, -5, -2)] == e.month
      && Int(Slice(exp, 0, -5)) == Ok(e.day)
  {
    ExpiryTextParts(e);
    IntOfDecimal(e.day);
    TwoDigitsValue(e.year - 2000);
    MonthCodeLookup(e.month);
  }

  /** Reading the two-digit year, a listed name parses back to its contract. */
  lemma ParseOptionNameRoundTrip(underlying: string, c: OptionContract)
    requires NoDash(underlying) && Listable(c)
    ensures IsOptionName(OptionName(underlying, c))
    ensures ParseOptionName(OptionName(underlying, c), true) == Ok(c)
  {
    ListedNameParts(underlying, c, true);
    ExpiryFields(c.expiry);
  }

  /** The contract as the one-digit reading sees it: the year becomes 2000
      plus the tens digit of the two-digit year. */
  function TensYear(c: OptionContract): (t: OptionContract)
    ensures t.kind == c.kind && t.strike == c.strike
    ensures t.expiry.month == c.expiry.month && t.expiry.day == c.expiry.day
    ensures 2000 <= c.expiry.year < 2100 ==> 2000 <= t.expiry.year <= 2009
    ensures 2010 <= c.expiry.year < 2100 ==> t.expiry.year < c.expiry.year
  {
    c.(expiry := c.expiry.(year := 2000 + (c.expiry.year - 2000) / 10))
  }

  /** On any expiry text whose last two characters are digits, the one-digit
      reading gives 2000 plus the tens digit of the year the two-digit
      reading gives. */
  lemma ExpiryYearTensDigit(exp: string)
    requires |exp| >= 2 && ExpiryYear(exp, true).Ok?
    ensures ExpiryYear(exp, false) == Ok(2000 + (ExpiryYear(exp, true).value - 2000) / 10)
  {
    SliceFromEnd(exp, 2, 1);
    var s := exp[|exp| - 2..];
    assert s[..1] == [s[0]] && [s[0]][..0] == [];
    assert DigitsValue(s) == DigitValue(s[0]) * 10 + DigitValue(s[1]);
    assert At(exp, -2) == Ok(s[0]);
  }

  /** As written, the year is 2000 plus the tens digit of the two-digit year:
      a listed name parses to its contract with that year in place of the
      real one when that date exists, and raises ValueError when it does
      not (29 February of a year 2000 + d that is no leap year). */
  lemma ParseOptionNameAsWrittenYear(underlying: string, c: OptionContract)
    requires NoDash(underlying) && Listable(c)
    ensures IsOptionName(OptionName(underlying, c))
    ensures var t := TensYear(c);
      ParseOptionName(OptionName(underlying, c), false)
        == if IsDate(t.expiry.year, t.expiry.month, t.expiry.day) then Ok(t)
           else Err(ValueError("day is out of range for month"))
  {
    ListedNameParts(underlying, c, false);
    ExpiryFields(c.expiry);
    var t := TensYear(c);
    assert ExpiryYear(ExpiryText(c.expiry), false).value == t.expiry.year;
    if IsDate(t.expiry.year, t.expiry.month, t.expiry.day) {
      assert t == OptionContract(c.kind, Expiry(t.expiry.year, t.expiry.month, t.expiry.day), c.strike);
    }
  }

  /** "BTC-25JUN21-40000-C" expires on 25 June 2021, but as written the hedger
      reads the year 2002. */
  lemma OneDigitYearExample()
    ensures ParseOptionName("BTC-25JUN21-40000-C", false) == Ok(OptionContract(Call, Expiry(2002, 6, 25), 40000))
  {
    var c := OptionContract(Call, Expiry(2021, 6, 25), 40000);
    assert (c.expiry.year - 2000) / 10 == 2;
    assert IsDate(2002, 6, 25);
    ExampleName();
    ParseOptionNameAsWrittenYear("BTC", c);
  }

  /** Reading both digits, the same name gives back 25 June 2021. */
  lemma TwoDigitYearExample()
    ensures ParseOptionName("BTC-25JUN21-40000-C", true) == Ok(OptionContract(Call, Expiry(2021, 6, 25), 40000))
  {
    ExampleName();
    ParseOptionNameRoundTrip("BTC", OptionContract(Call, Expiry(2021, 6, 25), 40000));
  }

  /** "BTC-29FEB24-50000-C" expires on 29 February 2024; as written the
      hedger asks for 29 February 2002, which does not exist, and raises. */
  lemma LeapDayAsWrittenRaises()
    ensures ParseOptionName("BTC-29FEB24-50000-C", false) == Err(ValueError("day is out of range for month"))
  {
    var c := OptionContract(Call, Expiry(2024, 2, 29), 50000);
    LeapDayName();
    assert TensYear(c).expiry == Expiry(2002, 2, 29) && !IsDate(2002, 2, 29);
    ParseOptionNameAsWrittenYear("BTC", c);
  }

  /** Reading both digits, the same name is the real 29 February 2024. */
  lemma LeapDayTwoDigitYear()
    ensures ParseOptionName("BTC-29FEB24-50000-C", true) == Ok(OptionContract(Call, Expiry(2024, 2, 29), 50000))
  {
    var c := OptionContract(Call, Expiry(2024, 2, 29), 50000);
    LeapDayName();
    assert IsDate(2024, 2, 29);
    ParseOptionNameRoundTrip("BTC", c);
  }

  lemma LeapDayName()
    ensures OptionName("BTC", OptionContract(Call, Expiry(2024, 2, 29), 50000)) == "BTC-29FEB24-50000-C"
  {
    LeapDayNumerals();
    assert TwoDigits(24) == "24";
    assert MonthCodes[1] == "FEB";
    assert ExpiryText(Expiry(2024, 2, 29)) == "29FEB24";
  }

  /** The numerals of the leap-day example. */
  lemma LeapDayNumerals()
    ensures Decimal(29) == "29" && Decimal(50000) == "50000"
  {
    assert Decimal(2) == "2";
    assert Decimal(5) == "5";
    assert Decimal(50) == "50";
    assert Decimal(500) == "500";
    assert Decimal(5000) == "5000";
  }

  lemma ExampleName()
    ensures OptionName("BTC", OptionContract(Call, Expiry(2021, 6, 25), 40000)) == "BTC-25JUN21-40000-C"
  {
    DecimalExamples();
    assert TwoDigits(21) == "21";
    assert MonthCodes[5] == "JUN";
  }

  /** The numerals of the worked example. */
  lemma DecimalExamples()
    ensures Decimal(25) == "25" && Decimal(40000) == "40000"
  {
    assert Decimal(2) == "2";
    assert Decimal(4) == "4";
    assert Decimal(40) == "40";
    assert Decimal(400) == "400";
    assert Decimal(4000) == "4000";
  }
}
