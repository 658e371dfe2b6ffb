/** A worked case: a three-minute answer whose middle reading is "undef". */
module WorkedCase {
  import opened Outcomes
  import opened Timestamps
  import opened SeriesParse
  import opened Sums
  import opened Integration
  import Numbers

  /** Keys that int() reads as 0, 60000 and 120000 milliseconds: "0",
      "60000" and "120000" are such keys, and so are padded or signed forms. */
  predicate MinuteKeys(k0: string, k1: string, k2: string) {
    Numbers.ParseInt(k0) == Some(0) && Numbers.ParseInt(k1) == Some(60000) &&
    Numbers.ParseInt(k2) == Some(120000)
  }

  /** The `data` dictionary of the answer: one reading a minute, the second
      one reported as "undef". */
  function Data(k0: string, k1: string, k2: string): (r: map<string, Json>) {
    map[k0 := JArr([JNum(100.0)]), k1 := JArr([JStr("undef")]), k2 := JArr([JNum(200.0)])]
  }

  /** The series parseResults makes of it: the "undef" reading is kept, as 0. */
  function Expected(): (r: seq<Sample>) {
    [Sample(Instant(0), 100.0), Sample(Instant(60000), 0.0), Sample(Instant(120000), 200.0)]
  }

  /** int() reads a string of digits with no sign and no padding as its value. */
  lemma DigitsParse(s: string, n: nat)
    requires |s| > 0 && Numbers.AllDigits(s) && Numbers.DigitsValue(s) == n
    ensures Numbers.ParseInt(s) == Some(n)
  {
    assert !Numbers.IsSpace(s[0]) && !Numbers.IsSpace(s[|s| - 1]);
    assert Numbers.LStrip(s) == s;
    assert Numbers.RStrip(s) == s;
  }

  /** Appending a digit to a digit string multiplies its value by ten and adds the digit. */
  lemma DigitStep(s: string, d: char, n: nat)
    requires Numbers.AllDigits(s) && Numbers.DigitsValue(s) == n && Numbers.IsDigit(d)
    ensures Numbers.AllDigits(s + [d])
    ensures Numbers.DigitsValue(s + [d]) == 10 * n + (d as int - '0' as int)
  {
    assert (s + [d])[..|s|] == s;
  }

  lemma ZeroParses()
    ensures Numbers.ParseInt("0") == Some(0)
  {
    assert Numbers.DigitsValue("0") == 0;
    DigitsParse("0", 0);
  }

  lemma SixtyThousandParses()
    ensures Numbers.ParseInt("60000") == Some(60000)
  {
    assert Numbers.DigitsValue("6") == 6;
    DigitStep("6", '0', 6);
    assert "6" + ['0'] == "60";
    DigitStep("60", '0', 60);
    assert "60" + ['0'] == "600";
    DigitStep("600", '0', 600);
    assert "600" + ['0'] == "6000";
    DigitStep("6000", '0', 6000);
    assert "6000" + ['0'] == "60000";
    DigitsParse("60000", 60000);
  }

  lemma HundredTwentyThousandParses()
    ensures Numbers.ParseInt("120000") == Some(120000)
  {
    assert Numbers.DigitsValue("1") == 1;
    DigitStep("1", '2', 1);
    assert "1" + ['2'] == "12";
    DigitStep("12", '0', 12);
    assert "12" + ['0'] == "120";
    DigitStep("120", '0', 120);
    assert "120" + ['0'] == "1200";
    DigitStep("1200", '0', 1200);
    assert "1200" + ['0'] == "12000";
    DigitStep("12000", '0', 12000);
    assert "12000" + ['0'] == "120000";
    DigitsParse("120000", 120000);
  }

  /** The order in which the keys are written. */
  function WrittenOrder(k0: string, k1: string, k2: string): (r: seq<string>) {
    [k0, k1, k2]
  }

  lemma WrittenOrderIsIterationOrder(k0: string, k1: string, k2: string)
    requires MinuteKeys(k0, k1, k2)
    ensures IsIterationOrder(WrittenOrder(k0, k1, k2), Data(k0, k1, k2))
  {
    DistinctKeys(k0, k1, k2);
    ThreeKeys(k0, k1, k2);
  }

  /** Keys read as different timestamps are different keys. */
  lemma DistinctKeys(k0: string, k1: string, k2: string)
    requires MinuteKeys(k0, k1, k2)
    ensures k0 != k1 && k0 != k2 && k1 != k2
  {
  }

  /** Three different keys, written once each, are the keys of the dictionary. */
  lemma ThreeKeys(k0: string, k1: string, k2: string)
    requires k0 != k1 && k0 != k2 && k1 != k2
    ensures multiset(WrittenOrder(k0, k1, k2)) == multiset(Data(k0, k1, k2).Keys)
  {
    assert Data(k0, k1, k2).Keys == {k0, k1, k2};
    assert multiset(WrittenOrder(k0, k1, k2)) == multiset{k0, k1, k2};
    assert multiset({k0, k1, k2}) == multiset{k0, k1, k2};
  }

  /** The readings stored under three different keys. */
  lemma DataLookups(k0: string, k1: string, k2: string)
    requires k0 != k1 && k0 != k2 && k1 != k2
    ensures Data(k0, k1, k2)[k0] == JArr([JNum(100.0)])
    ensures Data(k0, k1, k2)[k1] == JArr([JStr("undef")])
    ensures Data(k0, k1, k2)[k2] == JArr([JNum(200.0)])
  {
  }

  /** An entry whose key int() reads and whose value is a one-reading list
      converts to that reading at that time. */
  lemma EntryConverts(parse: FloatParser, key: string, ms: int, x: Json)
    requires Numbers.ParseInt(key) == Some(ms)
    ensures ParseEntry(parse, key, JArr([x])) == Ok(Sample(Decode(ms), GetNumber(parse, x)))
  {
    assert FirstReading(JArr([x])) == Some(x);
  }

  /** Each entry converts to its sample; the "undef" reading becomes 0. */
  lemma EntriesConvert(parse: FloatParser, k0: string, k1: string, k2: string)
    requires parse("undef") == None && MinuteKeys(k0, k1, k2)
    ensures ParseEntry(parse, k0, Data(k0, k1, k2)[k0]) == Ok(Expected()[0])
    ensures ParseEntry(parse, k1, Data(k0, k1, k2)[k1]) == Ok(Expected()[1])
    ensures ParseEntry(parse, k2, Data(k0, k1, k2)[k2]) == Ok(Expected()[2])
  {
    DistinctKeys(k0, k1, k2);
    DataLookups(k0, k1, k2);
    EntryConverts(parse, k0, 0, JNum(100.0));
    EntryConverts(parse, k1, 60000, JStr("undef"));
    EntryConverts(parse, k2, 120000, JNum(200.0));
    assert GetNumber(parse, JStr("undef")) == 0.0;
  }

  /** Every entry of the answer parses. */
  lemma EveryMinuteParses(parse: FloatParser, k0: string, k1: string, k2: string)
    requires parse("undef") == None && MinuteKeys(k0, k1, k2)
    ensures EveryEntryParses(parse, Data(k0, k1, k2))
  {
    EntriesConvert(parse, k0, k1, k2);
  }

  /** Mapping the written order gives the expected series. */
  lemma WrittenOrderSamples(parse: FloatParser, k0: string, k1: string, k2: string)
    requires parse("undef") == None && MinuteKeys(k0, k1, k2)
    ensures MapSeq(WrittenOrder(k0, k1, k2), EntrySamples(parse, Data(k0, k1, k2))) == Expected()
  {
    EntriesConvert(parse, k0, k1, k2);
    var g := EntrySamples(parse, Data(k0, k1, k2));
    var o := WrittenOrder(k0, k1, k2);
    MapSeqAt(o, g, 0);
    MapSeqAt(o, g, 1);
    MapSeqAt(o, g, 2);
  }

  /** The expected series is in time order. */
  lemma ExpectedSorted()
    ensures Sorted(Expected())
  {
  }

  /** Whatever order the dictionary is iterated in, parseResults gives the
      three samples in time order, the "undef" one at 0. */
  lemma UndefSeries(parse: FloatParser, k0: string, k1: string, k2: string, order: seq<string>)
    requires parse("undef") == None && MinuteKeys(k0, k1, k2)
    requires IsIterationOrder(order, Data(k0, k1, k2))
    ensures ParseResults(parse, JObj(map["data" := JObj(Data(k0, k1, k2))]), order) == Ok(Expected())
  {
    var data := Data(k0, k1, k2);
    var g := EntrySamples(parse, data);
    WrittenOrderIsIterationOrder(k0, k1, k2);
    EveryMinuteParses(parse, k0, k1, k2);
    WrittenOrderSamples(parse, k0, k1, k2);
    ExpectedSorted();
    ParseResultsContents(parse, data, order);
    ParseResultsSorts(parse, JObj(map["data" := JObj(data)]), order);
    MapSeqPermutation(order, WrittenOrder(k0, k1, k2), g);
    SortedUnique(Sort(MapSeq(order, g)), Expected());
  }

  /** The keys as the platform writes them are minute keys. */
  lemma WrittenKeysAreMinuteKeys()
    ensures MinuteKeys("0", "60000", "120000")
  {
    ZeroParses();
    SixtyThousandParses();
    HundredTwentyThousandParses();
  }

  /** It integrates to 5 energy units: dt is 60 s, the readings add to 300. */
  lemma UndefSeriesEnergy()
    ensures IntegrateTimeSeries(Expected()) == Ok(5.0)
  {
    var e := Expected();
    var p2 := e[..|e| - 1];
    var p1 := p2[..|p2| - 1];
    assert p1 == [e[0]] && p1[..0] == [];
    assert Total(p1) == 100.0;
    assert Total(p2) == 100.0;
    assert Total(e) == 300.0;
    assert Interval(e) == 60.0;
  }

  /** At a constant tariff of 0.2 it costs 1. */
  lemma UndefSeriesCost()
    ensures Cost(Expected(), ConstantTariff(0.2)) == Ok(1.0)
  {
    ConstantTariffCost(Expected(), 0.2);
    UndefSeriesEnergy();
  }
}
