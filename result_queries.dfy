/**
 * The read-only queries of `ResultsDataProvider` over the loaded dataset:
 * distinct combinations, the parameters tested for one combination, the record
 * filters of `get_performance_data` and its ordering, and the figures of
 * `get_stats`.
 */
module ResultQueries {
  import opened Wrappers
  import opened Text
  import opened JsonValue
  import opened ResultNames
  import opened ResultRecords
  import opened Ordering

  /** One entry of `get_combinations`. */
  datatype Combination = Combination(runtime: string, instanceType: string, modelName: string, id: string)

  function CombinationOf(info: DirInfo): Combination
  {
    Combination(info.runtime, info.instanceType, info.modelName, DirName(info.runtime, info.instanceType, info.modelName))
  }

  /** The `(runtime, instance_type, model_name)` column triple of every record. */
  function Infos(data: seq<Record>): seq<DirInfo>
  {
    MapSeq(data, (r: Record) => r.info)
  }

  /** `get_combinations`: one entry per distinct triple, its id the triple joined by `--`. */
  function Combinations(data: seq<Record>): (cs: seq<Combination>)
    ensures NoDuplicates(cs)
    ensures forall c :: c in cs <==> exists k :: 0 <= k < |data| && c == CombinationOf(data[k].info)
    ensures forall c :: c in cs ==> c.id == DirName(c.runtime, c.instanceType, c.modelName)
  {
    var infos := Dedup(Infos(data));
    var cs := MapSeq(infos, CombinationOf);
    forall c ensures c in cs <==> exists k :: 0 <= k < |data| && c == CombinationOf(data[k].info) {
      MapSeqMembers(infos, CombinationOf, c);
      if c in cs {
        var i :| 0 <= i < |infos| && CombinationOf(infos[i]) == c;
        MapSeqMembers(data, (r: Record) => r.info, infos[i]);
      }
      if exists k :: 0 <= k < |data| && c == CombinationOf(data[k].info) {
        var k :| 0 <= k < |data| && c == CombinationOf(data[k].info);
        MapSeqMembers(data, (r: Record) => r.info, data[k].info);
      }
    }
    forall i, j | 0 <= i < j < |cs| ensures cs[i] != cs[j] {
      assert infos[i] != infos[j];
    }
    cs
  }

  /**
   * The id of a combination of loaded records names a directory that parses back
   * to the same triple, as long as the model does not itself end in `.yaml`.
   */
  lemma CombinationIdParses(resultsDir: string, listing: seq<DirEntry>, c: Combination)
    requires c in Combinations(LoadListing(resultsDir, listing))
    requires !EndsWith(c.modelName, ".yaml")
    ensures ParseDirectoryName(c.id) == Some(DirInfo(c.runtime, c.instanceType, c.modelName))
  {
    var data := LoadListing(resultsDir, listing);
    var i :| 0 <= i < |data| && c == CombinationOf(data[i].info);
    var k, j := LoadedRecordOrigin(resultsDir, listing, data[i]);
    var e := listing[k];
    FileRecordContents(resultsDir, e.name, ParseDirectoryName(e.name).value, e.files[j]);
    ParseDirectoryNamePlain(e.name);
    DirectoryNameRoundTrip(c.runtime, c.instanceType, c.modelName);
  }

  /** The three lists of `get_test_parameters`. */
  datatype Parameters = Parameters(inputTokens: seq<int>, outputTokens: seq<int>, randomTokens: seq<int>)

  /** The records of one combination, in order. */
  function OfCombination(data: seq<Record>, info: DirInfo): seq<Record>
  {
    Filter(data, InfoIs(info))
  }

  /** The mask `(df['runtime'] == ...) & (df['instance_type'] == ...) & (df['model_name'] == ...)`. */
  function InfoIs(info: DirInfo): Record -> bool
  {
    (r: Record) => r.info == info
  }

  /**
   * `get_test_parameters`: None (`{}`) on an empty dataset; otherwise, for the
   * combination, the distinct input, output and random token counts, each
   * ascending by value.
   */
  function TestParameters(data: seq<Record>, runtime: string, instanceType: string, modelName: string): (r: Option<Parameters>)
    ensures r.None? <==> data == []
  {
    if data == [] then None
    else
      var rs := OfCombination(data, DirInfo(runtime, instanceType, modelName));
      Some(Parameters(
        SortInts(MapSeq(rs, (x: Record) => x.params.inputTokens as int)),
        SortInts(MapSeq(rs, (x: Record) => x.params.outputTokens as int)),
        SortInts(MapSeq(rs, (x: Record) => x.params.randomTokens as int))))
  }

  /** The distinct values of `f` over the records of one combination, ascending. */
  lemma {:induction false} CombinationValues(data: seq<Record>, info: DirInfo, f: Record -> int, v: int)
    ensures var vs := SortInts(MapSeq(OfCombination(data, info), f));
            && Increasing(vs)
            && (v in vs <==> exists k :: 0 <= k < |data| && data[k].info == info && f(data[k]) == v)
  {
    var rs := OfCombination(data, info);
    MapSeqMembers(rs, f, v);
    if exists i :: 0 <= i < |rs| && f(rs[i]) == v {
      var i :| 0 <= i < |rs| && f(rs[i]) == v;
      var k := FilterOrigin(data, InfoIs(info), i);
      assert data[k].info == info && f(data[k]) == v;
    }
    if exists k :: 0 <= k < |data| && data[k].info == info && f(data[k]) == v {
      var k :| 0 <= k < |data| && data[k].info == info && f(data[k]) == v;
      var i := FilterKeeps(data, InfoIs(info), k);
      assert f(rs[i]) == v;
    }
  }

  /** A value is listed exactly when some record of the combination was run with it. */
  lemma TestParametersListed(data: seq<Record>, runtime: string, instanceType: string, modelName: string, v: int)
    requires data != []
    ensures var p := TestParameters(data, runtime, instanceType, modelName).value;
            && Increasing(p.inputTokens) && Increasing(p.outputTokens) && Increasing(p.randomTokens)
            && (v in p.inputTokens <==>
                exists k :: 0 <= k < |data| && data[k].info == DirInfo(runtime, instanceType, modelName) &&
                            data[k].params.inputTokens == v)
            && (v in p.outputTokens <==>
                exists k :: 0 <= k < |data| && data[k].info == DirInfo(runtime, instanceType, modelName) &&
                            data[k].params.outputTokens == v)
            && (v in p.randomTokens <==>
                exists k :: 0 <= k < |data| && data[k].info == DirInfo(runtime, instanceType, modelName) &&
                            data[k].params.randomTokens == v)
  {
    var info := DirInfo(runtime, instanceType, modelName);
    CombinationValues(data, info, (x: Record) => x.params.inputTokens as int, v);
    CombinationValues(data, info, (x: Record) => x.params.outputTokens as int, v);
    CombinationValues(data, info, (x: Record) => x.params.randomTokens as int, v);
  }

  /**
   * One filter of `get_performance_data`: a key that is not a column and a
   * `None` value keep everything; a list keeps the records whose field is one
   * of its elements, any other value the records whose field equals it.
   */
  predicate Passes(r: Record, key: string, value: Json)
  {
    value == JNull ||
    match FieldOf(r, key)
    case None => true
    case Some(v) => if value.JArr? then v in value.items else v == value
  }

  /** All filters, applied one after the other. */
  predicate MatchesAll(r: Record, filters: seq<(string, Json)>)
  {
    AllHold(filters, (f: (string, Json)) => Passes(r, f.0, f.1))
  }

  /** Keys that are not columns of the data are ignored, whatever their value. */
  lemma UnknownKeyIgnored(r: Record, key: string, value: Json)
    requires !IsColumn(key)
    ensures Passes(r, key, value)
  {
    assert key !in IdentityColumns;
  }

  /** A known key with a list keeps exactly the members, with any other non-`None` value exactly the equal ones. */
  lemma KnownKeyFilters(r: Record, key: string, value: Json)
    requires WellFormed(r) && IsColumn(key) && value != JNull
    ensures FieldOf(r, key).Some?
    ensures value.JArr? ==> (Passes(r, key, value) <==> FieldOf(r, key).value in value.items)
    ensures !value.JArr? ==> (Passes(r, key, value) <==> FieldOf(r, key).value == value)
  {
    FieldOfColumns(r, key);
  }

  /** A record passes all filters exactly when it passes each one. */
  lemma MatchesAllEach(r: Record, filters: seq<(string, Json)>)
    ensures MatchesAll(r, filters) <==> forall k :: 0 <= k < |filters| ==> Passes(r, filters[k].0, filters[k].1)
  {
    AllHoldEach(filters, (f: (string, Json)) => Passes(r, f.0, f.1));
  }

  /** One filter as a function value: the boolean mask it puts on the DataFrame. */
  function Keeper(key: string, value: Json): Record -> bool
  {
    r => Passes(r, key, value)
  }

  /** All filters as a function value. */
  function Matcher(filters: seq<(string, Json)>): Record -> bool
  {
    r => MatchesAll(r, filters)
  }

  /** Passing one more filter is passing the longer list of filters. */
  lemma MatchesAllSnoc(filters: seq<(string, Json)>, k: nat)
    requires k < |filters|
    ensures forall r :: MatchesAll(r, filters[..k + 1]) ==
                        (MatchesAll(r, filters[..k]) && Passes(r, filters[k].0, filters[k].1))
  {
    assert filters[..k + 1][..k] == filters[..k];
  }

  /** Applying the filters one at a time keeps what the whole list keeps. */
  lemma FilterStep(rows: seq<Record>, filters: seq<(string, Json)>, k: nat)
    requires k < |filters|
    ensures Filter(Filter(rows, Matcher(filters[..k])), Keeper(filters[k].0, filters[k].1))
            == Filter(rows, Matcher(filters[..k + 1]))
  {
    MatchesAllSnoc(filters, k);
    FilterFilter(rows, Matcher(filters[..k]), Keeper(filters[k].0, filters[k].1), Matcher(filters[..k + 1]));
  }

  /** A filter on a key that is not a column, or with a `None` value, changes nothing. */
  lemma SkippedFilter(rows: seq<Record>, key: string, value: Json)
    requires !IsColumn(key) || value == JNull
    ensures Filter(rows, Keeper(key, value)) == rows
  {
    forall r: Record ensures Keeper(key, value)(r) {
      if value != JNull { UnknownKeyIgnored(r, key, value); }
    }
    FilterAll(rows, Keeper(key, value));
  }

  /** With no filters every record is kept. */
  lemma NoFilters(rows: seq<Record>)
    ensures Filter(rows, Matcher([])) == rows
  {
    FilterAll(rows, Matcher([]));
  }

  predicate SortedByProcesses(s: seq<Record>)
  {
    forall i, j :: 0 <= i < j < |s| ==> s[i].params.processes <= s[j].params.processes
  }

  /** Inserts `x` after the records with no more processes than it. */
  function InsertByProcesses(x: Record, s: seq<Record>): (r: seq<Record>)
    requires SortedByProcesses(s)
    ensures SortedByProcesses(r)
    ensures forall i :: 0 <= i < |r| ==> r[i] == x || r[i] in s
    ensures multiset(r) == multiset(s) + multiset{x}
  {
    if s == [] then [x]
    else if x.params.processes < s[0].params.processes then [x] + s
    else
      var tail := InsertByProcesses(x, s[1..]);
      InsertedAfterHead(x, s, tail);
      [s[0]] + tail
  }

  /** Putting the head back in front of `x` inserted into the rest keeps the order and the records. */
  lemma InsertedAfterHead(x: Record, s: seq<Record>, tail: seq<Record>)
    requires |s| > 0 && SortedByProcesses(s) && s[0].params.processes <= x.params.processes
    requires SortedByProcesses(tail)
    requires forall i :: 0 <= i < |tail| ==> tail[i] == x || tail[i] in s[1..]
    requires multiset(tail) == multiset(s[1..]) + multiset{x}
    ensures SortedByProcesses([s[0]] + tail)
    ensures forall i :: 0 <= i < |tail| + 1 ==> ([s[0]] + tail)[i] == x || ([s[0]] + tail)[i] in s
    ensures multiset([s[0]] + tail) == multiset(s) + multiset{x}
  {
    assert s == [s[0]] + s[1..];
    forall i | 0 <= i < |tail| ensures s[0].params.processes <= tail[i].params.processes {
      if tail[i] != x {
        var j :| 0 <= j < |s[1..]| && s[1..][j] == tail[i];
        assert s[1..][j] == s[j + 1];
      }
    }
  }

  /** `sort_values('processes')`: ascending by processes, the same records. */
  function SortByProcesses(s: seq<Record>): (r: seq<Record>)
    ensures SortedByProcesses(r)
    ensures multiset(r) == multiset(s)
  {
    if s == [] then []
    else
      var r := InsertByProcesses(s[|s| - 1], SortByProcesses(s[..|s| - 1]));
      assert s == s[..|s| - 1] + [s[|s| - 1]];
      r
  }

  /** The figures of `get_stats` (the float means are not part of this model). */
  datatype Stats = Stats(
    totalTests: nat,
    uniqueCombinations: nat,
    runtimes: seq<string>,
    instanceTypes: seq<string>,
    models: seq<string>,
    inputTokenRange: (int, int),
    outputTokenRange: (int, int),
    processRange: (int, int))

  /** `[int(column.min()), int(column.max())]`. */
  function Range(s: seq<int>): (r: (int, int))
    requires |s| > 0
    ensures r.0 in s && r.1 in s
    ensures forall i :: 0 <= i < |s| ==> r.0 <= s[i] <= r.1
  {
    (Min(s), Max(s))
  }

  /** `get_stats`: None (404) on an empty dataset. */
  function GetStats(data: seq<Record>): (r: Option<Stats>)
    ensures r.None? <==> data == []
    ensures r.Some? ==> r.value.totalTests == |data| && r.value.uniqueCombinations == |Combinations(data)|
  {
    if data == [] then None
    else
      Some(Stats(
        |data|,
        |Dedup(Infos(data))|,
        SortStrings(MapSeq(data, (x: Record) => x.info.runtime)),
        SortStrings(MapSeq(data, (x: Record) => x.info.instanceType)),
        SortStrings(MapSeq(data, (x: Record) => x.info.modelName)),
        Range(MapSeq(data, (x: Record) => x.params.inputTokens as int)),
        Range(MapSeq(data, (x: Record) => x.params.outputTokens as int)),
        Range(MapSeq(data, (x: Record) => x.params.processes as int))))
  }

  /** The name lists are sorted and hold exactly the distinct values of their column. */
  lemma GetStatsNames(data: seq<Record>, name: string)
    requires data != []
    ensures var st := GetStats(data).value;
            && SortedStrings(st.runtimes) && SortedStrings(st.instanceTypes) && SortedStrings(st.models)
            && (name in st.runtimes <==> exists k :: 0 <= k < |data| && data[k].info.runtime == name)
            && (name in st.instanceTypes <==> exists k :: 0 <= k < |data| && data[k].info.instanceType == name)
            && (name in st.models <==> exists k :: 0 <= k < |data| && data[k].info.modelName == name)
  {
    MapSeqMembers(data, (x: Record) => x.info.runtime, name);
    MapSeqMembers(data, (x: Record) => x.info.instanceType, name);
    MapSeqMembers(data, (x: Record) => x.info.modelName, name);
  }

  /** Each range is the least and the greatest value of its column, both attained. */
  lemma {:induction false} ColumnRange(data: seq<Record>, f: Record -> int)
    requires data != []
    ensures var rg := Range(MapSeq(data, f));
            && (forall k :: 0 <= k < |data| ==> rg.0 <= f(data[k]) <= rg.1)
            && (exists k :: 0 <= k < |data| && f(data[k]) == rg.0)
            && (exists k :: 0 <= k < |data| && f(data[k]) == rg.1)
  {
    var rg := Range(MapSeq(data, f));
    MapSeqMembers(data, f, rg.0);
    MapSeqMembers(data, f, rg.1);
  }

  lemma GetStatsRanges(data: seq<Record>)
    requires data != []
    ensures var st := GetStats(data).value;
            && (forall k :: 0 <= k < |data| ==> st.inputTokenRange.0 <= data[k].params.inputTokens <= st.inputTokenRange.1)
            && (forall k :: 0 <= k < |data| ==> st.outputTokenRange.0 <= data[k].params.outputTokens <= st.outputTokenRange.1)
            && (forall k :: 0 <= k < |data| ==> st.processRange.0 <= data[k].params.processes <= st.processRange.1)
            && (exists k :: 0 <= k < |data| && data[k].params.inputTokens == st.inputTokenRange.0)
            && (exists k :: 0 <= k < |data| && data[k].params.inputTokens == st.inputTokenRange.1)
            && (exists k :: 0 <= k < |data| && data[k].params.outputTokens == st.outputTokenRange.0)
            && (exists k :: 0 <= k < |data| && data[k].params.outputTokens == st.outputTokenRange.1)
            && (exists k :: 0 <= k < |data| && data[k].params.processes == st.processRange.0)
            && (exists k :: 0 <= k < |data| && data[k].params.processes == st.processRange.1)
  {
    ColumnRange(data, (x: Record) => x.params.inputTokens as int);
    ColumnRange(data, (x: Record) => x.params.outputTokens as int);
    ColumnRange(data, (x: Record) => x.params.processes as int);
  }
}
