/** parseResults: turns the `data` dictionary of a time-series answer,
    `{millisecond-key: [reading, ...]}`, into a sorted list of samples. */
module SeriesParse {
  import opened Outcomes
  import opened Timestamps
  import Numbers

  /** One (datetime, reading) pair of the normalised series. */
  datatype Sample = Sample(at: Instant, value: real)

  /** Python's ordering of (datetime, number) tuples: by time, then by reading. */
  predicate Le(a: Sample, b: Sample) {
    a.at.ms < b.at.ms || (a.at.ms == b.at.ms && a.value <= b.value)
  }

  predicate Sorted(s: seq<Sample>) {
    forall i, j :: 0 <= i < j < |s| ==> Le(s[i], s[j])
  }

  /** A Python float parser: the reading `float(s)` yields, or None where it
      raises. */
  type FloatParser = string -> Option<real>

  /** getNumber: float(v), and 0 wherever float() raises. A JSON number is kept,
      a boolean is 1 or 0, a string is parsed, and null, a list or an object
      give 0. */
  function GetNumber(parse: FloatParser, v: Json): (r: real)
    ensures v.JNum? ==> r == v.n
    ensures v.JStr? ==> r == (if parse(v.s).Some? then parse(v.s).value else 0.0)
    ensures v.JBool? ==> r == (if v.b then 1.0 else 0.0)
    ensures v.JNull? || v.JArr? || v.JObj? ==> r == 0.0
    ensures r != 0.0 ==> v.JNum? || v == JBool(true) || (v.JStr? && parse(v.s).Some?)
  {
    match v
    case JNum(n) => n
    case JBool(b) => if b then 1.0 else 0.0
    case JStr(s) => (match parse(s) case Some(x) => x case None => 0.0)
    case JNull => 0.0
    case JArr(_) => 0.0
    case JObj(_) => 0.0
  }

  /** `val[0]` for an entry's value: the first element of a list, the first
      character of a string; an IndexError, TypeError or KeyError (None)
      otherwise. */
  function FirstReading(v: Json): (r: Option<Json>)
    ensures r.Some? <==> (v.JArr? && |v.items| > 0) || (v.JStr? && |v.s| > 0)
    ensures v.JArr? && |v.items| > 0 ==> r == Some(v.items[0])
    ensures v.JStr? && |v.s| > 0 ==> r == Some(JStr(v.s[..1]))
  {
    match v
    case JArr(items) => if |items| > 0 then Some(items[0]) else None
    case JStr(s) => if |s| > 0 then Some(JStr(s[..1])) else None
    case _ => None
  }

  /** One element of the list comprehension: (efergy_ts_to_datetime(int(key)),
      getNumber(val[0])), evaluated left to right. */
  function ParseEntry(parse: FloatParser, key: string, val: Json): (r: Result<Sample>)
    ensures r.Ok? <==> Numbers.ParseInt(key).Some? && FirstReading(val).Some?
    ensures r.Ok? ==> r.value == Sample(Decode(Numbers.ParseInt(key).value),
                                        GetNumber(parse, FirstReading(val).value))
    ensures Numbers.ParseInt(key).None? ==> r == Err(BadTimestamp(key))
  {
    match Numbers.ParseInt(key)
    case None => Err(BadTimestamp(key))
    case Some(ms) =>
      match FirstReading(val)
      case None => Err(NoReading(key))
      case Some(first) => Ok(Sample(Decode(ms), GetNumber(parse, first)))
  }

  predicate AllKeysIn(order: seq<string>, data: map<string, Json>) {
    forall i :: 0 <= i < |order| ==> order[i] in data
  }

  /** The entry at key `k` of `data` converts without an exception. */
  predicate EntryParses(parse: FloatParser, data: map<string, Json>, k: string) {
    k in data && ParseEntry(parse, k, data[k]).Ok?
  }

  predicate AllEntriesParse(parse: FloatParser, data: map<string, Json>, order: seq<string>) {
    forall i :: 0 <= i < |order| ==> EntryParses(parse, data, order[i])
  }

  /** Every entry parses when the first one does and every later one does. */
  lemma AllEntriesParseStep(parse: FloatParser, data: map<string, Json>, order: seq<string>)
    requires order != []
    ensures AllEntriesParse(parse, data, order) <==>
              EntryParses(parse, data, order[0]) && AllEntriesParse(parse, data, order[1..])
  {
    if EntryParses(parse, data, order[0]) && AllEntriesParse(parse, data, order[1..]) {
      forall i | 0 <= i < |order| ensures EntryParses(parse, data, order[i]) {
        if i > 0 {
          assert order[i] == order[1..][i - 1];
        }
      }
    }
  }

  /** The image of a list under a function, element by element. */
  function MapSeq<A, B>(s: seq<A>, g: A -> B): (r: seq<B>)
    ensures |r| == |s|
  {
    if s == [] then [] else [g(s[0])] + MapSeq(s[1..], g)
  }

  lemma {:induction false} MapSeqAt<A, B>(s: seq<A>, g: A -> B, i: nat)
    requires i < |s|
    ensures MapSeq(s, g)[i] == g(s[i])
  {
    if i > 0 {
      MapSeqAt(s[1..], g, i - 1);
    }
  }

  /** The sample of the entry at a key; a placeholder for keys that do not parse. */
  function EntrySample(parse: FloatParser, data: map<string, Json>, k: string): (r: Sample) {
    if k in data && ParseEntry(parse, k, data[k]).Ok? then ParseEntry(parse, k, data[k]).value
    else Sample(Epoch, 0.0)
  }

  function EntrySamples(parse: FloatParser, data: map<string, Json>): (r: string -> Sample) {
    k => EntrySample(parse, data, k)
  }

  /** The list comprehension over `data` iterated in `order`: the first entry
      that raises aborts it. */
  function ParseItems(parse: FloatParser, data: map<string, Json>, order: seq<string>)
    : (r: Result<seq<Sample>>)
    requires AllKeysIn(order, data)
    ensures r.Ok? <==> AllEntriesParse(parse, data, order)
    ensures r.Ok? ==> r.value == MapSeq(order, EntrySamples(parse, data))
  {
    if order == [] then Ok([])
    else
      AllEntriesParseStep(parse, data, order);
      match ParseEntry(parse, order[0], data[order[0]])
      case Err(e) => Err(e)
      case Ok(s) =>
        match ParseItems(parse, data, order[1..])
        case Err(e) => Err(e)
        case Ok(rest) => Ok([s] + rest)
  }

  /** Places `x` before the first element it is not above. */
  function Insert(x: Sample, s: seq<Sample>): (r: seq<Sample>) {
    if s == [] then [x]
    else if Le(x, s[0]) then [x] + s
    else [s[0]] + Insert(x, s[1..])
  }

  /** Inserting adds `x` and loses nothing. */
  lemma {:induction false} InsertPermutation(x: Sample, s: seq<Sample>)
    ensures multiset(Insert(x, s)) == multiset(s) + multiset{x}
  {
    if s != [] && !Le(x, s[0]) {
      InsertPermutation(x, s[1..]);
      assert s == [s[0]] + s[1..];
    }
  }

  /** A sample below every element of a sorted list can be put in front of it. */
  lemma SortedCons(h: Sample, rest: seq<Sample>)
    requires Sorted(rest)
    requires forall j :: 0 <= j < |rest| ==> Le(h, rest[j])
    ensures Sorted([h] + rest)
  {
    var l := [h] + rest;
    forall i, j | 0 <= i < j < |l| ensures Le(l[i], l[j]) {
      assert l[j] == rest[j - 1];
      if i > 0 {
        assert l[i] == rest[i - 1];
      }
    }
  }

  /** An element of the multiset of a list is at some index of it. */
  lemma InMultisetIndex<T>(s: seq<T>, y: T) returns (i: nat)
    requires y in multiset(s)
    ensures i < |s| && s[i] == y
  {
    assert y in s;
    i :| 0 <= i < |s| && s[i] == y;
  }

  /** Inserting into a sorted list keeps it sorted. */
  lemma {:induction false} InsertSorted(x: Sample, s: seq<Sample>)
    requires Sorted(s)
    ensures Sorted(Insert(x, s))
  {
    if s == [] {
    } else if Le(x, s[0]) {
      SortedCons(x, s);
    } else {
      var tail := s[1..];
      var rest := Insert(x, tail);
      assert Sorted(tail);
      InsertSorted(x, tail);
      InsertPermutation(x, tail);
      forall j | 0 <= j < |rest| ensures Le(s[0], rest[j]) {
        var y := rest[j];
        assert y in multiset(rest);
        if y != x {
          assert y in multiset(tail);
          var i := InMultisetIndex(tail, y);
          assert s[i + 1] == y;
        }
      }
      SortedCons(s[0], rest);
    }
  }

  /** `sorted`: an ascending permutation of its argument. */
  function Sort(s: seq<Sample>): (r: seq<Sample>)
    ensures Sorted(r)
    ensures multiset(r) == multiset(s)
  {
    if s == [] then []
    else
      var rest := Sort(s[1..]);
      InsertSorted(s[0], rest);
      InsertPermutation(s[0], rest);
      assert s == [s[0]] + s[1..];
      Insert(s[0], rest)
  }

  /** The head of a sorted list is below everything in it. */
  lemma SortedHead(a: seq<Sample>, x: Sample)
    requires Sorted(a) && x in multiset(a)
    ensures Le(a[0], x)
  {
    var i := InMultisetIndex(a, x);
    if i == 0 {
      assert a[0].value <= x.value;
    }
  }

  /** Two sorted listings of one multiset start with the same sample. */
  lemma SortedHeads(a: seq<Sample>, b: seq<Sample>)
    requires Sorted(a) && Sorted(b) && multiset(a) == multiset(b) && a != []
    ensures b != [] && a[0] == b[0]
  {
    assert a[0] in multiset(b);
    assert b[0] in multiset(a);
    SortedHead(a, b[0]);
    SortedHead(b, a[0]);
  }

  /** A sorted list is its head followed by a sorted list of the rest. */
  lemma SortedTail(a: seq<Sample>)
    requires Sorted(a) && a != []
    ensures Sorted(a[1..]) && a == [a[0]] + a[1..]
    ensures multiset(a[1..]) == multiset(a) - multiset{a[0]}
  {
    var t := a[1..];
    forall i, j | 0 <= i < j < |t| ensures Le(t[i], t[j]) {
      assert t[i] == a[i + 1] && t[j] == a[j + 1];
    }
    MultisetHead(a);
  }

  /** Taking the head off a list takes one copy of it out of the multiset. */
  lemma MultisetHead<T>(a: seq<T>)
    requires a != []
    ensures a == [a[0]] + a[1..]
    ensures multiset(a[1..]) == multiset(a) - multiset{a[0]}
  {
    assert a == [a[0]] + a[1..];
    assert multiset(a) == multiset{a[0]} + multiset(a[1..]);
  }

  /** Le is antisymmetric on samples, so a multiset has one sorted listing. */
  lemma {:induction false} SortedUnique(a: seq<Sample>, b: seq<Sample>)
    requires Sorted(a) && Sorted(b) && multiset(a) == multiset(b)
    ensures a == b
    decreases |a|
  {
    if a != [] {
      SortedHeads(a, b);
      SortedTail(a);
      SortedTail(b);
      SortedUnique(a[1..], b[1..]);
    }
  }

  /** The iteration order of `data` is some listing of its keys, each once. */
  predicate IsIterationOrder(order: seq<string>, data: map<string, Json>) {
    multiset(order) == multiset(data.Keys)
  }

  /** `order` lists the keys of results['data'], when that is a dictionary. */
  predicate OrderFits(results: Json, order: seq<string>) {
    Field(results, "data").Ok? && Field(results, "data").value.JObj? ==>
      IsIterationOrder(order, Field(results, "data").value.fields)
  }

  /** An iteration order lists every key of `data`, and nothing else, once. */
  lemma IterationOrderKeys(order: seq<string>, data: map<string, Json>)
    requires IsIterationOrder(order, data)
    ensures AllKeysIn(order, data)
    ensures forall k :: k in data ==> k in order
    ensures |order| == |data|
  {
    forall i | 0 <= i < |order| ensures order[i] in data {
      assert order[i] in multiset(order);
    }
    forall k | k in data ensures k in order {
      assert k in multiset(data.Keys);
    }
    assert |multiset(order)| == |order|;
    assert |multiset(data.Keys)| == |data.Keys|;
  }

  /** parseResults: reads results['data'], converts every entry and sorts the
      pairs. */
  function ParseResults(parse: FloatParser, results: Json, order: seq<string>): (r: Result<seq<Sample>>)
    requires OrderFits(results, order)
    ensures Field(results, "data").Err? ==> r == Err(MissingField("data"))
    ensures Field(results, "data").Ok? && !Field(results, "data").value.JObj? ==> r == Err(NotAMapping("data"))
    ensures r.Ok? ==> Sorted(r.value) && |r.value| == |results.fields["data"].fields|
  {
    match Field(results, "data")
    case Err(e) => Err(e)
    case Ok(data) =>
      if !data.JObj? then Err(NotAMapping("data"))
      else
        IterationOrderKeys(order, data.fields);
        match ParseItems(parse, data.fields, order)
        case Err(e) => Err(e)
        case Ok(items) =>
          assert |Sort(items)| == |items| by {
            assert |multiset(Sort(items))| == |Sort(items)|;
            assert |multiset(items)| == |items|;
          }
          Ok(Sort(items))
  }

  /** parseResults fails exactly when `data` is missing or is not a
      dictionary, or some entry has a key int() refuses or a value with no
      first element. */
  lemma ParseResultsFailure(parse: FloatParser, results: Json, order: seq<string>)
    requires OrderFits(results, order)
    ensures ParseResults(parse, results, order).Ok? <==>
              results.JObj? && "data" in results.fields && results.fields["data"].JObj? &&
              (forall k :: k in results.fields["data"].fields ==>
                 ParseEntry(parse, k, results.fields["data"].fields[k]).Ok?)
  {
    if results.JObj? && "data" in results.fields && results.fields["data"].JObj? {
      var data := results.fields["data"].fields;
      IterationOrderKeys(order, data);
      if !AllEntriesParse(parse, data, order) {
        var i :| 0 <= i < |order| && !ParseEntry(parse, order[i], data[order[i]]).Ok?;
      }
    }
  }

  /** Every entry of `data` has a key int() accepts and a value with a first element. */
  predicate EveryEntryParses(parse: FloatParser, data: map<string, Json>) {
    forall k :: k in data ==> ParseEntry(parse, k, data[k]).Ok?
  }

  /** When every entry parses, parseResults holds one pair per entry of `data`
      and nothing else, in ascending order. */
  lemma ParseResultsContents(parse: FloatParser, data: map<string, Json>, order: seq<string>)
    requires IsIterationOrder(order, data)
    requires EveryEntryParses(parse, data)
    ensures ParseResults(parse, JObj(map["data" := JObj(data)]), order).Ok?
    ensures var r := ParseResults(parse, JObj(map["data" := JObj(data)]), order).value;
            |r| == |data| && Sorted(r) &&
            (forall k :: k in data ==> ParseEntry(parse, k, data[k]).value in r) &&
            (forall x :: x in r ==> exists k :: k in data && ParseEntry(parse, k, data[k]).value == x)
  {
    IterationOrderKeys(order, data);
    assert Field(JObj(map["data" := JObj(data)]), "data") == Ok(JObj(data));
    assert AllEntriesParse(parse, data, order);
    assert ParseResults(parse, JObj(map["data" := JObj(data)]), order) == Ok(Sort(MapSeq(order, EntrySamples(parse, data))));
    SortedParsedContents(parse, data, order);
  }

  lemma SortedParsedContents(parse: FloatParser, data: map<string, Json>, order: seq<string>)
    requires IsIterationOrder(order, data)
    requires EveryEntryParses(parse, data)
    ensures AllKeysIn(order, data) && AllEntriesParse(parse, data, order)
    ensures var r := Sort(MapSeq(order, EntrySamples(parse, data)));
            |r| == |data| &&
            (forall k :: k in data ==> ParseEntry(parse, k, data[k]).value in r) &&
            (forall x :: x in r ==> exists k :: k in data && ParseEntry(parse, k, data[k]).value == x)
  {
    IterationOrderKeys(order, data);
    var items := MapSeq(order, EntrySamples(parse, data));
    var r := Sort(items);
    assert |r| == |items| by {
      assert |multiset(r)| == |r|;
      assert |multiset(items)| == |items|;
    }
    SortedParsedCovers(parse, data, order);
    SortedParsedOnly(parse, data, order);
  }

  lemma SortedParsedCovers(parse: FloatParser, data: map<string, Json>, order: seq<string>)
    requires AllKeysIn(order, data) && AllEntriesParse(parse, data, order)
    requires forall k :: k in data ==> k in order
    requires EveryEntryParses(parse, data)
    ensures forall k :: k in data ==> ParseEntry(parse, k, data[k]).value in Sort(MapSeq(order, EntrySamples(parse, data)))
  {
    var items := MapSeq(order, EntrySamples(parse, data));
    forall k | k in data ensures ParseEntry(parse, k, data[k]).value in Sort(items) {
      var i :| 0 <= i < |order| && order[i] == k;
      MapSeqAt(order, EntrySamples(parse, data), i);
      assert items[i] in multiset(items);
    }
  }

  lemma SortedParsedOnly(parse: FloatParser, data: map<string, Json>, order: seq<string>)
    requires AllKeysIn(order, data) && AllEntriesParse(parse, data, order)
    requires EveryEntryParses(parse, data)
    ensures forall x :: x in Sort(MapSeq(order, EntrySamples(parse, data))) ==>
              exists k :: k in data && ParseEntry(parse, k, data[k]).value == x
  {
    var items := MapSeq(order, EntrySamples(parse, data));
    forall x | x in Sort(items) ensures exists k :: k in data && ParseEntry(parse, k, data[k]).value == x {
      assert x in multiset(items);
      var i :| 0 <= i < |items| && items[i] == x;
      MapSeqAt(order, EntrySamples(parse, data), i);
      assert order[i] in data;
    }
  }

  lemma {:induction false} MapSeqAppend<A, B>(a: seq<A>, b: seq<A>, g: A -> B)
    ensures MapSeq(a + b, g) == MapSeq(a, g) + MapSeq(b, g)
  {
    if a == [] {
      assert a + b == b;
    } else {
      assert (a + b)[0] == a[0] && (a + b)[1..] == a[1..] + b;
      MapSeqAppend(a[1..], b, g);
      assert MapSeq(a + b, g) == [g(a[0])] + MapSeq(a[1..] + b, g);
    }
  }

  /** Taking the element at `j` out of a list takes one copy of it out of the
      list's multiset. */
  lemma MultisetRemove<T>(o: seq<T>, j: nat)
    requires j < |o|
    ensures multiset(o[..j] + o[j + 1..]) == multiset(o) - multiset{o[j]}
  {
    assert o == o[..j] + ([o[j]] + o[j + 1..]);
    assert multiset(o) == multiset(o[..j]) + multiset{o[j]} + multiset(o[j + 1..]);
  }

  /** A list is the part before an index, the element there and the part
      after it; mapping the list maps each part. */
  lemma MapSeqSplit<A, B>(o: seq<A>, j: nat, g: A -> B)
    requires j < |o|
    ensures MapSeq(o, g) == MapSeq(o[..j], g) + ([g(o[j])] + MapSeq(o[j + 1..], g))
    ensures MapSeq(o[..j] + o[j + 1..], g) == MapSeq(o[..j], g) + MapSeq(o[j + 1..], g)
  {
    var front, back := o[..j], o[j + 1..];
    assert o == front + ([o[j]] + back);
    MapSeqAppend(front, [o[j]] + back, g);
    MapSeqAppend([o[j]], back, g);
    assert MapSeq([o[j]], g) == [g(o[j])];
    MapSeqAppend(front, back, g);
  }

  /** Taking an element out of the middle of a list takes one copy of it out
      of the multiset. */
  lemma MultisetMiddle<T>(front: seq<T>, v: T, back: seq<T>)
    ensures multiset(front + ([v] + back)) == multiset(front + back) + multiset{v}
  {
  }

  /** Taking one element out of a list takes its image out of the mapped list. */
  lemma MapSeqRemove<A, B>(o: seq<A>, j: nat, g: A -> B)
    requires j < |o|
    ensures multiset(MapSeq(o, g)) == multiset(MapSeq(o[..j] + o[j + 1..], g)) + multiset{g(o[j])}
  {
    MapSeqSplit(o, j, g);
    MultisetMiddle(MapSeq(o[..j], g), g(o[j]), MapSeq(o[j + 1..], g));
  }

  /** The first element of a list occurs in any permutation of it, and what
      remains of the two lists are permutations of each other. */
  lemma PermutationStep<A>(o1: seq<A>, o2: seq<A>) returns (j: nat)
    requires multiset(o1) == multiset(o2) && o1 != []
    ensures j < |o2| && o2[j] == o1[0]
    ensures multiset(o1[1..]) == multiset(o2[..j] + o2[j + 1..])
  {
    assert o1[0] in multiset(o1);
    j := InMultisetIndex(o2, o1[0]);
    MultisetRemove(o2, j);
    MultisetHead(o1);
  }

  /** Mapping two permutations of one list gives two permutations of one list. */
  lemma {:induction false} MapSeqPermutation<A, B>(o1: seq<A>, o2: seq<A>, g: A -> B)
    requires multiset(o1) == multiset(o2)
    ensures multiset(MapSeq(o1, g)) == multiset(MapSeq(o2, g))
    decreases |o1|
  {
    if o1 == [] {
      assert |multiset(o2)| == 0;
    } else {
      var j := PermutationStep(o1, o2);
      MapSeqRemove(o2, j, g);
      MapSeqRemove(o1, 0, g);
      assert o1[..0] + o1[1..] == o1[1..];
      MapSeqPermutation(o1[1..], o2[..j] + o2[j + 1..], g);
    }
  }

  /** A successful parseResults is the sorted list of the samples of `data`. */
  lemma ParseResultsSorts(parse: FloatParser, results: Json, order: seq<string>)
    requires OrderFits(results, order)
    requires ParseResults(parse, results, order).Ok?
    ensures results.JObj? && "data" in results.fields && results.fields["data"].JObj?
    ensures var data := results.fields["data"].fields;
            AllKeysIn(order, data) && AllEntriesParse(parse, data, order) &&
            ParseResults(parse, results, order).value == Sort(MapSeq(order, EntrySamples(parse, data)))
  {
    var data := results.fields["data"].fields;
    IterationOrderKeys(order, data);
  }

  /** parseResults does not depend on the order in which the dictionary is
      iterated: whether it fails, and the list it returns, are the same for
      every iteration order. */
  lemma ParseResultsOrderFree(parse: FloatParser, results: Json, o1: seq<string>, o2: seq<string>)
    requires OrderFits(results, o1) && OrderFits(results, o2)
    ensures ParseResults(parse, results, o1).Ok? <==> ParseResults(parse, results, o2).Ok?
    ensures ParseResults(parse, results, o1).Ok? ==>
              ParseResults(parse, results, o1).value == ParseResults(parse, results, o2).value
  {
    ParseResultsFailure(parse, results, o1);
    ParseResultsFailure(parse, results, o2);
    if ParseResults(parse, results, o1).Ok? {
      ParseResultsSorts(parse, results, o1);
      ParseResultsSorts(parse, results, o2);
      var g := EntrySamples(parse, results.fields["data"].fields);
      MapSeqPermutation(o1, o2, g);
      SortedUnique(Sort(MapSeq(o1, g)), Sort(MapSeq(o2, g)));
    }
  }

  /** getNumber never fails: a reading float() refuses, such as "undef", becomes
      0 and its sample is kept, at its own timestamp. */
  lemma UndefKept(parse: FloatParser, data: map<string, Json>, order: seq<string>, key: string, ms: int)
    requires IsIterationOrder(order, data)
    requires EveryEntryParses(parse, data)
    requires parse("undef") == None
    requires key in data && Numbers.ParseInt(key) == Some(ms)
    requires FirstReading(data[key]) == Some(JStr("undef"))
    ensures ParseResults(parse, JObj(map["data" := JObj(data)]), order).Ok?
    ensures Sample(Decode(ms), 0.0) in ParseResults(parse, JObj(map["data" := JObj(data)]), order).value
  {
    ParseResultsContents(parse, data, order);
  }
}
