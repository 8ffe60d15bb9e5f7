/**
 * `DataFetcher._parse_timeframe`: a bar-size string such as "1Day" or
 * "15Min" becomes an (amount, unit) timeframe, through a fixed table, then
 * a "<digits><unit>" prefix match, and otherwise one day.
 */
module DataFetcher {
  import opened Wrappers

  datatype Unit = Minute | Hour | Day | Week | Month

  /** Alpaca's `TimeFrame(amount, unit)`. */
  datatype TimeFrame = TimeFrame(amount: nat, unit: Unit)

  /** `timeframe_map`. */
  const TimeframeTable: map<string, TimeFrame> := map[
    "1Min" := TimeFrame(1, Minute),
    "5Min" := TimeFrame(5, Minute),
    "15Min" := TimeFrame(15, Minute),
    "1Hour" := TimeFrame(1, Hour),
    "1Day" := TimeFrame(1, Day),
    "1Week" := TimeFrame(1, Week),
    "1Month" := TimeFrame(1, Month)]

  /** The unit names the pattern accepts, in the order the alternation tries them. */
  function UnitName(u: Unit): string
  {
    match u
    case Minute => "Min"
    case Hour => "Hour"
    case Day => "Day"
    case Week => "Week"
    case Month => "Month"
  }

  predicate IsDigit(c: char) { '0' <= c <= '9' }

  predicate AllDigits(s: string) { forall i :: 0 <= i < |s| ==> IsDigit(s[i]) }

  /** The length of the run of digits `\d+` takes from the front of `s` (greedy; 0 when none). */
  function DigitRun(s: string): (k: nat)
    ensures k <= |s| && AllDigits(s[..k])
    ensures k < |s| ==> !IsDigit(s[k])
  {
    if s == [] || !IsDigit(s[0]) then 0
    else
      var k := 1 + DigitRun(s[1..]);
      assert s[..k] == [s[0]] + s[1..][..k - 1];
      k
  }

  /** `int(digits)` on a string of decimal digits. */
  function DigitsValue(s: string): nat
    requires AllDigits(s)
  {
    if s == [] then 0
    else DigitsValue(s[..|s| - 1]) * 10 + (s[|s| - 1] as int - '0' as int)
  }

  /** The unit whose name starts `s`, trying Min, Hour, Day, Week, Month in that order. */
  function UnitAtFront(s: string): (u: Option<Unit>)
    ensures u.Some? ==> UnitName(u.value) <= s
    ensures u.None? ==> forall v: Unit :: !(UnitName(v) <= s)
  {
    if "Min" <= s then Some(Minute)
    else if "Hour" <= s then Some(Hour)
    else if "Day" <= s then Some(Day)
    else if "Week" <= s then Some(Week)
    else if "Month" <= s then Some(Month)
    else None
  }

  /**
   * `re.match(r'(\d+)(Min|Hour|Day|Week|Month)', s)`: digits at the front,
   * then a unit name; the rest of the string is ignored.
   */
  function ParseCustom(s: string): (r: Option<TimeFrame>)
    ensures r.Some? <==> DigitRun(s) > 0 && UnitAtFront(s[DigitRun(s)..]).Some?
    ensures r.Some? ==>
              var k := DigitRun(s);
              r.value.amount == DigitsValue(s[..k]) && s[..k] + UnitName(r.value.unit) <= s
  {
    var k := DigitRun(s);
    if k == 0 then None
    else
      match UnitAtFront(s[k..])
      case None => None
      case Some(u) =>
        assert s == s[..k] + s[k..];
        assert s[..k] + UnitName(u) == s[..k + |UnitName(u)|];
        Some(TimeFrame(DigitsValue(s[..k]), u))
  }

  /** `_parse_timeframe`: the table, then the pattern, then one day. */
  function ParseTimeframe(timeframe: string): (tf: TimeFrame)
    ensures timeframe in TimeframeTable ==> tf == TimeframeTable[timeframe]
    ensures timeframe !in TimeframeTable && ParseCustom(timeframe).Some? ==> tf == ParseCustom(timeframe).value
    ensures timeframe !in TimeframeTable && ParseCustom(timeframe).None? ==> tf == TimeFrame(1, Day)
  {
    if timeframe in TimeframeTable then TimeframeTable[timeframe]
    else
      match ParseCustom(timeframe)
      case Some(tf) => tf
      case None => TimeFrame(1, Day)
  }

  /** Decimal rendering of an amount: the strings `int()` reads back. */
  function Show(n: nat): (s: string)
    ensures |s| > 0 && AllDigits(s)
  {
    var d := ['0' + (n % 10) as char];
    if n < 10 then d else Show(n / 10) + d
  }

  /** Reading back a rendered amount gives the amount. */
  lemma {:induction false} ShowRoundTrip(n: nat)
    ensures DigitsValue(Show(n)) == n
  {
    var s := Show(n);
    if n >= 10 {
      ShowRoundTrip(n / 10);
      assert s[..|s| - 1] == Show(n / 10);
    }
  }

  /** The digit run of digits followed by a non-digit is exactly those digits. */
  lemma {:induction false} DigitRunOfDigits(d: string, t: string)
    requires AllDigits(d) && (t == [] || !IsDigit(t[0]))
    ensures DigitRun(d + t) == |d|
  {
    if d != [] {
      assert (d + t)[1..] == d[1..] + t;
      DigitRunOfDigits(d[1..], t);
    } else {
      assert d + t == t;
    }
  }

  /** The pattern reads an amount written in decimal followed by a unit name, whatever follows. */
  lemma PatternParses(amount: nat, u: Unit, rest: string)
    ensures ParseCustom(Show(amount) + UnitName(u) + rest) == Some(TimeFrame(amount, u))
  {
    var s := Show(amount) + UnitName(u) + rest;
    var digits := Show(amount);
    assert s == digits + (UnitName(u) + rest);
    DigitRunOfDigits(digits, UnitName(u) + rest);
    assert s[..|digits|] == digits;
    assert s[|digits|..] == UnitName(u) + rest;
    ShowRoundTrip(amount);
    UnitAtFrontOfName(u, rest);
  }

  /**
   * Every amount written in decimal followed by a unit name, with anything
   * after it, parses to that amount and unit (the table agrees with the
   * pattern on its keys, so the lookup order does not matter).
   */
  lemma ParseAmountAndUnit(amount: nat, u: Unit, rest: string)
    ensures ParseTimeframe(Show(amount) + UnitName(u) + rest) == TimeFrame(amount, u)
  {
    var s := Show(amount) + UnitName(u) + rest;
    PatternParses(amount, u, rest);
    if s in TimeframeTable {
      TableAgreesWithPattern(s);
    }
  }

  /** A unit name is recognised as that unit, whatever follows it. */
  lemma UnitAtFrontOfName(u: Unit, rest: string)
    ensures UnitAtFront(UnitName(u) + rest) == Some(u)
  {
    var s := UnitName(u) + rest;
    assert s[..|UnitName(u)|] == UnitName(u);
    match u
    case Minute =>
    case Hour => assert s[0] == 'H';
    case Day => assert s[0] == 'D';
    case Week => assert s[0] == 'W';
    case Month => assert s[0] == 'M' && s[1] == 'o';
  }

  /** The table entry `key` is the amount written in decimal followed by the unit name. */
  lemma TableEntry(key: string, amount: nat, u: Unit)
    requires key == Show(amount) + UnitName(u)
    ensures ParseCustom(key) == Some(TimeFrame(amount, u))
  {
    PatternParses(amount, u, "");
    assert Show(amount) + UnitName(u) + "" == key;
  }

  /** Each table entry is what the pattern alone would give. */
  lemma TableAgreesWithPattern(key: string)
    requires key in TimeframeTable
    ensures ParseCustom(key) == Some(TimeframeTable[key])
  {
    if key == "1Min" {
      TableEntry(key, 1, Minute);
    } else if key == "5Min" {
      TableEntry(key, 5, Minute);
    } else if key == "15Min" {
      assert Show(15) == "15";
      TableEntry(key, 15, Minute);
    } else if key == "1Hour" {
      TableEntry(key, 1, Hour);
    } else if key == "1Day" {
      TableEntry(key, 1, Day);
    } else if key == "1Week" {
      TableEntry(key, 1, Week);
    } else {
      TableEntry(key, 1, Month);
    }
  }

  /** The match is a prefix match: "1Minute" is one minute. */
  lemma PrefixMatch()
    ensures ParseTimeframe("1Minute") == TimeFrame(1, Minute)
  {
    ParseAmountAndUnit(1, Minute, "ute");
    assert Show(1) + UnitName(Minute) + "ute" == "1Minute";
  }

  /** Anything without leading digits falls back to one day instead of failing. */
  lemma DefaultsToOneDay(timeframe: string)
    requires timeframe == [] || !IsDigit(timeframe[0])
    ensures ParseTimeframe(timeframe) == TimeFrame(1, Day)
  {
  }
}
