/**
 * The summary the automated runner compiles over all results: the number of
 * results, and the best and worst throughput and end-to-end latency together
 * with the test case that set each of them.
 */
module TestSummary {
  import opened Wrappers
  import opened Text
  import opened Ordering
  import opened JsonValue

  /** An integer, or the float infinity the worst-throughput and best-latency trackers start from. */
  datatype Extended = Finite(n: int) | Infinity

  /** `a < b`. */
  predicate Below(a: Extended, b: Extended)
  {
    a.Finite? && (b.Infinity? || a.n < b.n)
  }

  /** One `{"value": ..., "test_case": ...}` entry of the summary. */
  datatype Mark = Mark(value: Extended, testCase: string)

  /** The summary dictionary for a non-empty set of results (the float averages are not modelled). */
  datatype Summary = Summary(totalTests: nat, bestThroughput: Mark, worstThroughput: Mark,
                             bestLatency: Mark, worstLatency: Mark)

  /** `_generate_summary`'s outcome: `{}` for no results, a raised TypeError or AttributeError, or the summary. */
  datatype SummaryOutcome = NoResults | SummaryRaised | Computed(summary: Summary)

  /** What one result contributes: nothing, an exception, or its three metrics. */
  datatype Sample = NoMetrics | Broken | Metrics(throughput: int, firstToken: int, endToEnd: int)

  /** `metrics.get(key, 0)` as a number, or None when it is not one and comparing or summing it raises. */
  function MetricOf(metrics: map<string, Json>, key: string): Option<int>
  {
    Num(if key in metrics then metrics[key] else JNum(0))
  }

  /**
   * What the summary loop makes of one result. `'performance_metrics' in result`
   * is a key test on a dictionary, an element test on a list and a substring test
   * on a string, and raises on anything else; looking the key up then raises on
   * a list or a string, and `.get` raises on metrics that are not a dictionary.
   */
  function SampleOf(result: Json): Sample
  {
    match result
    case JObj(fields) =>
      if "performance_metrics" !in fields then NoMetrics
      else (match fields["performance_metrics"]
        case JObj(m) =>
          (match (MetricOf(m, "throughput_tokens_per_second"), MetricOf(m, "avg_first_token_latency"),
                  MetricOf(m, "avg_end_to_end_latency"))
           case (Some(t), Some(f), Some(e)) => Metrics(t, f, e)
           case _ => Broken)
        case _ => Broken)
    case JArr(items) => if JStr("performance_metrics") in items then Broken else NoMetrics
    case JStr(s) => if Contains(s, "performance_metrics") then Broken else NoMetrics
    case _ => Broken
  }

  /** The throughput a result records, with its test case. */
  function ThroughputOf(): ((string, Json)) -> Option<(string, int)>
  {
    (entry: (string, Json)) => if SampleOf(entry.1).Metrics? then Some((entry.0, SampleOf(entry.1).throughput)) else None
  }

  /** The end-to-end latency a result records, with its test case. */
  function LatencyOf(): ((string, Json)) -> Option<(string, int)>
  {
    (entry: (string, Json)) => if SampleOf(entry.1).Metrics? then Some((entry.0, SampleOf(entry.1).endToEnd)) else None
  }

  /** One step of a "higher is kept" tracker: replace the mark when the value is strictly greater. */
  function Raise(m: Mark, x: (string, int)): Mark
  {
    if Below(m.value, Finite(x.1)) then Mark(Finite(x.1), x.0) else m
  }

  /** One step of a "lower is kept" tracker: replace the mark when the value is strictly smaller. */
  function Lower(m: Mark, x: (string, int)): Mark
  {
    if Below(Finite(x.1), m.value) then Mark(Finite(x.1), x.0) else m
  }

  /** The tracker that starts at `{"value": 0, "test_case": ""}` and keeps the highest value. */
  function MaxMark(vals: seq<(string, int)>): Mark
    decreases |vals|
  {
    if vals == [] then Mark(Finite(0), "") else Raise(MaxMark(vals[..|vals| - 1]), vals[|vals| - 1])
  }

  /** The tracker that starts at `{"value": inf, "test_case": ""}` and keeps the lowest value. */
  function MinMark(vals: seq<(string, int)>): Mark
    decreases |vals|
  {
    if vals == [] then Mark(Infinity, "") else Lower(MinMark(vals[..|vals| - 1]), vals[|vals| - 1])
  }

  lemma MaxMarkSnoc(vals: seq<(string, int)>, x: (string, int))
    ensures MaxMark(vals + [x]) == Raise(MaxMark(vals), x)
  {
    assert (vals + [x])[..|vals|] == vals;
  }

  lemma MinMarkSnoc(vals: seq<(string, int)>, x: (string, int))
    ensures MinMark(vals + [x]) == Lower(MinMark(vals), x)
  {
    assert (vals + [x])[..|vals|] == vals;
  }

  /**
   * The highest-value tracker holds the maximum of 0 and all values; it still
   * names no test case exactly when no value exceeded 0.
   */
  lemma {:induction false} MaxMarkIsMaximum(vals: seq<(string, int)>)
    ensures MaxMark(vals).value.Finite? && MaxMark(vals).value.n >= 0
    ensures forall i :: 0 <= i < |vals| ==> vals[i].1 <= MaxMark(vals).value.n
    ensures MaxMark(vals).value.n == 0 ==> MaxMark(vals).testCase == ""
    decreases |vals|
  {
    if vals != [] {
      MaxMarkIsMaximum(vals[..|vals| - 1]);
    }
  }

  /**
   * A positive maximum is attained, and the mark names the first test case that
   * attains it: the one that strictly exceeded the previous best.
   */
  lemma {:induction false} MaxMarkFirst(vals: seq<(string, int)>) returns (i: nat)
    requires MaxMark(vals) != Mark(Finite(0), "")
    ensures MaxMark(vals).value.Finite?
    ensures i < |vals| && vals[i] == (MaxMark(vals).testCase, MaxMark(vals).value.n)
    ensures forall j :: 0 <= j < i ==> vals[j].1 < MaxMark(vals).value.n
    decreases |vals|
  {
    var init := vals[..|vals| - 1];
    var m := MaxMark(init);
    MaxMarkIsMaximum(init);
    if Below(m.value, Finite(vals[|vals| - 1].1)) {
      i := |vals| - 1;
    } else {
      i := MaxMarkFirst(init);
    }
  }

  /**
   * The lowest-value tracker stays at infinity, naming no test case, exactly
   * when there are no values; otherwise it holds their minimum.
   */
  lemma {:induction false} MinMarkIsMinimum(vals: seq<(string, int)>)
    ensures MinMark(vals).value.Infinity? <==> vals == []
    ensures vals == [] ==> MinMark(vals).testCase == ""
    ensures forall i :: 0 <= i < |vals| ==> MinMark(vals).value.Finite? && MinMark(vals).value.n <= vals[i].1
    decreases |vals|
  {
    if vals != [] {
      MinMarkIsMinimum(vals[..|vals| - 1]);
    }
  }

  /** A finite minimum is attained, first by the test case the mark names. */
  lemma {:induction false} MinMarkFirst(vals: seq<(string, int)>) returns (i: nat)
    requires vals != []
    ensures i < |vals| && vals[i] == (MinMark(vals).testCase, MinMark(vals).value.n)
    ensures forall j :: 0 <= j < i ==> MinMark(vals).value.n < vals[j].1
    decreases |vals|
  {
    var init := vals[..|vals| - 1];
    var m := MinMark(init);
    MinMarkIsMinimum(init);
    if Below(Finite(vals[|vals| - 1].1), m.value) {
      i := |vals| - 1;
    } else {
      i := MinMarkFirst(init);
    }
  }

  /** No result makes the summary loop or the sums raise. */
  predicate Intact(results: seq<(string, Json)>)
  {
    forall i :: 0 <= i < |results| ==> !SampleOf(results[i].1).Broken?
  }

  /** What `_generate_summary` yields for the results, in their iteration order. */
  function SummaryOf(results: seq<(string, Json)>): SummaryOutcome
  {
    if results == [] then NoResults
    else if !Intact(results) then SummaryRaised
    else
      var throughputs := FilterMap(results, ThroughputOf());
      var latencies := FilterMap(results, LatencyOf());
      Computed(Summary(|results|, MaxMark(throughputs), MinMark(throughputs), MinMark(latencies), MaxMark(latencies)))
  }

  /**
   * `_generate_summary`: `{}` for no results; otherwise one pass over the results
   * that records each throughput and latency and moves the four trackers.
   */
  method GenerateSummary(allResults: seq<(string, Json)>) returns (outcome: SummaryOutcome)
    ensures outcome == SummaryOf(allResults)
  {
    if |allResults| == 0 {
      return NoResults;
    }
    var summary := Summary(|allResults|, Mark(Finite(0), ""), Mark(Infinity, ""), Mark(Infinity, ""), Mark(Finite(0), ""));
    var throughputs: seq<(string, int)> := [];
    var latencies: seq<(string, int)> := [];
    var k := 0;
    while k < |allResults|
      invariant 0 <= k <= |allResults|
      invariant Intact(allResults[..k])
      invariant throughputs == FilterMap(allResults[..k], ThroughputOf())
      invariant latencies == FilterMap(allResults[..k], LatencyOf())
      invariant summary == Summary(|allResults|, MaxMark(throughputs), MinMark(throughputs),
                                   MinMark(latencies), MaxMark(latencies))
    {
      var (testCase, result) := allResults[k];
      var sample := SampleOf(result);
      assert ThroughputOf()(allResults[k]) == if sample.Metrics? then Some((testCase, sample.throughput)) else None;
      assert LatencyOf()(allResults[k]) == if sample.Metrics? then Some((testCase, sample.endToEnd)) else None;
      if sample.Broken? {
        assert !SampleOf(allResults[k].1).Broken? ==> false;
        return SummaryRaised;
      }
      if sample.Metrics? {
        var throughput, latency := sample.throughput, sample.endToEnd;
        MaxMarkSnoc(throughputs, (testCase, throughput));
        MinMarkSnoc(throughputs, (testCase, throughput));
        MaxMarkSnoc(latencies, (testCase, latency));
        MinMarkSnoc(latencies, (testCase, latency));
        throughputs := throughputs + [(testCase, throughput)];
        latencies := latencies + [(testCase, latency)];
        summary := TrackSample(summary, testCase, throughput, latency);
      }
      FilterMapPrefixStep(allResults, ThroughputOf(), k);
      FilterMapPrefixStep(allResults, LatencyOf(), k);
      k := k + 1;
    }
    assert allResults[..k] == allResults;
    outcome := Computed(summary);
  }

  /** The four tracker updates of one result that has metrics, in the order the loop makes them. */
  method TrackSample(summary: Summary, testCase: string, throughput: int, latency: int) returns (s: Summary)
    ensures s == summary.(bestThroughput := Raise(summary.bestThroughput, (testCase, throughput)),
                          worstThroughput := Lower(summary.worstThroughput, (testCase, throughput)),
                          bestLatency := Lower(summary.bestLatency, (testCase, latency)),
                          worstLatency := Raise(summary.worstLatency, (testCase, latency)))
  {
    s := summary;
    if Below(s.bestThroughput.value, Finite(throughput)) {
      s := s.(bestThroughput := Mark(Finite(throughput), testCase));
    }
    if Below(Finite(throughput), s.worstThroughput.value) {
      s := s.(worstThroughput := Mark(Finite(throughput), testCase));
    }
    if Below(Finite(latency), s.bestLatency.value) {
      s := s.(bestLatency := Mark(Finite(latency), testCase));
    }
    if Below(s.worstLatency.value, Finite(latency)) {
      s := s.(worstLatency := Mark(Finite(latency), testCase));
    }
  }

  /** `{}` exactly for no results; a computed summary counts every result, with or without metrics. */
  lemma SummaryShape(results: seq<(string, Json)>)
    ensures SummaryOf(results) == NoResults <==> results == []
    ensures SummaryOf(results).Computed? ==> SummaryOf(results).summary.totalTests == |results|
    ensures results != [] ==> (SummaryOf(results).SummaryRaised? <==> !Intact(results))
  {
  }

  /**
   * In a computed summary, the best throughput is at least every recorded
   * throughput and at least 0, and it names the first result that reached it.
   */
  lemma BestThroughputIsFirstMaximum(results: seq<(string, Json)>) returns (i: nat)
    requires SummaryOf(results).Computed?
    requires SummaryOf(results).summary.bestThroughput.value != Finite(0)
    ensures var best := SummaryOf(results).summary.bestThroughput;
      && best.value.Finite? && best.value.n > 0
      && i < |results| && SampleOf(results[i].1).Metrics?
      && results[i].0 == best.testCase && SampleOf(results[i].1).throughput == best.value.n
      && (forall j :: 0 <= j < |results| && SampleOf(results[j].1).Metrics? ==>
            SampleOf(results[j].1).throughput <= best.value.n)
      && (forall j :: 0 <= j < i && SampleOf(results[j].1).Metrics? ==>
            SampleOf(results[j].1).throughput < best.value.n)
  {
    var f := ThroughputOf();
    var vals := FilterMap(results, f);
    var best := MaxMark(vals);
    MaxMarkIsMaximum(vals);
    assert best != Mark(Finite(0), "");
    var k := MaxMarkFirst(vals);
    i := FilterMapPosition(results, f, k);
    FilterMapAtRank(results, f, i);
    forall j | 0 <= j < |results| && SampleOf(results[j].1).Metrics?
      ensures SampleOf(results[j].1).throughput <= best.value.n
    {
      var p := FilterMapRank(results, f, j);
      FilterMapAtRank(results, f, j);
      assert vals[p] == (results[j].0, SampleOf(results[j].1).throughput);
    }
    forall j | 0 <= j < i && SampleOf(results[j].1).Metrics?
      ensures SampleOf(results[j].1).throughput < best.value.n
    {
      var p := FilterMapRank(results, f, j);
      FilterMapAtRank(results, f, j);
      FilterMapRankMonotone(results, f, j, i);
      assert vals[p] == (results[j].0, SampleOf(results[j].1).throughput);
    }
  }

  /**
   * In a computed summary, the worst latency is at least every recorded
   * end-to-end latency and at least 0, and it names the first result that
   * reached it.
   */
  lemma WorstLatencyIsFirstMaximum(results: seq<(string, Json)>) returns (i: nat)
    requires SummaryOf(results).Computed?
    requires SummaryOf(results).summary.worstLatency.value != Finite(0)
    ensures var worst := SummaryOf(results).summary.worstLatency;
      && worst.value.Finite? && worst.value.n > 0
      && i < |results| && SampleOf(results[i].1).Metrics?
      && results[i].0 == worst.testCase && SampleOf(results[i].1).endToEnd == worst.value.n
      && (forall j :: 0 <= j < |results| && SampleOf(results[j].1).Metrics? ==>
            SampleOf(results[j].1).endToEnd <= worst.value.n)
      && (forall j :: 0 <= j < i && SampleOf(results[j].1).Metrics? ==>
            SampleOf(results[j].1).endToEnd < worst.value.n)
  {
    var f := LatencyOf();
    var vals := FilterMap(results, f);
    var worst := MaxMark(vals);
    MaxMarkIsMaximum(vals);
    assert worst != Mark(Finite(0), "");
    var k := MaxMarkFirst(vals);
    i := FilterMapPosition(results, f, k);
    FilterMapAtRank(results, f, i);
    forall j | 0 <= j < |results| && SampleOf(results[j].1).Metrics?
      ensures SampleOf(results[j].1).endToEnd <= worst.value.n
    {
      var p := FilterMapRank(results, f, j);
      FilterMapAtRank(results, f, j);
      assert vals[p] == (results[j].0, SampleOf(results[j].1).endToEnd);
    }
    forall j | 0 <= j < i && SampleOf(results[j].1).Metrics?
      ensures SampleOf(results[j].1).endToEnd < worst.value.n
    {
      var p := FilterMapRank(results, f, j);
      FilterMapAtRank(results, f, j);
      FilterMapRankMonotone(results, f, j, i);
      assert vals[p] == (results[j].0, SampleOf(results[j].1).endToEnd);
    }
  }

  /**
   * In a computed summary with a finite worst throughput, it is at most every
   * recorded throughput and names the first result that reached it.
   */
  lemma WorstThroughputIsFirstMinimum(results: seq<(string, Json)>) returns (i: nat)
    requires SummaryOf(results).Computed?
    requires SummaryOf(results).summary.worstThroughput.value.Finite?
    ensures var m := SummaryOf(results).summary.worstThroughput;
      && i < |results| && SampleOf(results[i].1).Metrics?
      && results[i].0 == m.testCase && SampleOf(results[i].1).throughput == m.value.n
      && (forall j :: 0 <= j < |results| && SampleOf(results[j].1).Metrics? ==>
            m.value.n <= SampleOf(results[j].1).throughput)
      && (forall j :: 0 <= j < i && SampleOf(results[j].1).Metrics? ==>
            m.value.n < SampleOf(results[j].1).throughput)
  {
    var f := ThroughputOf();
    var vals := FilterMap(results, f);
    var m := MinMark(vals);
    MinMarkIsMinimum(vals);
    var k := MinMarkFirst(vals);
    i := FilterMapPosition(results, f, k);
    FilterMapAtRank(results, f, i);
    forall j | 0 <= j < |results| && SampleOf(results[j].1).Metrics?
      ensures m.value.n <= SampleOf(results[j].1).throughput
    {
      var p := FilterMapRank(results, f, j);
      FilterMapAtRank(results, f, j);
      assert vals[p] == (results[j].0, SampleOf(results[j].1).throughput);
    }
    forall j | 0 <= j < i && SampleOf(results[j].1).Metrics?
      ensures m.value.n < SampleOf(results[j].1).throughput
    {
      var p := FilterMapRank(results, f, j);
      FilterMapAtRank(results, f, j);
      FilterMapRankMonotone(results, f, j, i);
      assert vals[p] == (results[j].0, SampleOf(results[j].1).throughput);
    }
  }

  /**
   * In a computed summary with a finite best latency, it is at most every
   * recorded end-to-end latency and names the first result that reached it.
   */
  lemma BestLatencyIsFirstMinimum(results: seq<(string, Json)>) returns (i: nat)
    requires SummaryOf(results).Computed?
    requires SummaryOf(results).summary.bestLatency.value.Finite?
    ensures var m := SummaryOf(results).summary.bestLatency;
      && i < |results| && SampleOf(results[i].1).Metrics?
      && results[i].0 == m.testCase && SampleOf(results[i].1).endToEnd == m.value.n
      && (forall j :: 0 <= j < |results| && SampleOf(results[j].1).Metrics? ==>
            m.value.n <= SampleOf(results[j].1).endToEnd)
      && (forall j :: 0 <= j < i && SampleOf(results[j].1).Metrics? ==>
            m.value.n < SampleOf(results[j].1).endToEnd)
  {
    var f := LatencyOf();
    var vals := FilterMap(results, f);
    var m := MinMark(vals);
    MinMarkIsMinimum(vals);
    var k := MinMarkFirst(vals);
    i := FilterMapPosition(results, f, k);
    FilterMapAtRank(results, f, i);
    forall j | 0 <= j < |results| && SampleOf(results[j].1).Metrics?
      ensures m.value.n <= SampleOf(results[j].1).endToEnd
    {
      var p := FilterMapRank(results, f, j);
      FilterMapAtRank(results, f, j);
      assert vals[p] == (results[j].0, SampleOf(results[j].1).endToEnd);
    }
    forall j | 0 <= j < i && SampleOf(results[j].1).Metrics?
      ensures m.value.n < SampleOf(results[j].1).endToEnd
    {
      var p := FilterMapRank(results, f, j);
      FilterMapAtRank(results, f, j);
      FilterMapRankMonotone(results, f, j, i);
      assert vals[p] == (results[j].0, SampleOf(results[j].1).endToEnd);
    }
  }

  /** The best throughput stays at 0 with no test case exactly when no result records a positive throughput. */
  lemma BestThroughputUnset(results: seq<(string, Json)>)
    requires SummaryOf(results).Computed?
    ensures SummaryOf(results).summary.bestThroughput == Mark(Finite(0), "") <==>
      forall j :: 0 <= j < |results| && SampleOf(results[j].1).Metrics? ==> SampleOf(results[j].1).throughput <= 0
  {
    var f := ThroughputOf();
    var vals := FilterMap(results, f);
    MaxMarkIsMaximum(vals);
    if MaxMark(vals) == Mark(Finite(0), "") {
      forall j | 0 <= j < |results| && SampleOf(results[j].1).Metrics?
        ensures SampleOf(results[j].1).throughput <= 0
      {
        var p := FilterMapRank(results, f, j);
        FilterMapAtRank(results, f, j);
        assert vals[p] == (results[j].0, SampleOf(results[j].1).throughput);
      }
    } else {
      var k := MaxMarkFirst(vals);
      var i := FilterMapPosition(results, f, k);
      FilterMapAtRank(results, f, i);
      assert SampleOf(results[i].1).Metrics? && SampleOf(results[i].1).throughput > 0;
    }
  }

  /** The worst throughput and best latency stay at infinity exactly when no result has metrics. */
  lemma MinimaUnset(results: seq<(string, Json)>)
    requires SummaryOf(results).Computed?
    ensures var s := SummaryOf(results).summary;
      (s.worstThroughput.value.Infinity? || s.bestLatency.value.Infinity?) <==>
      forall j :: 0 <= j < |results| ==> !SampleOf(results[j].1).Metrics?
  {
    var vt := FilterMap(results, ThroughputOf());
    var vl := FilterMap(results, LatencyOf());
    MinMarkIsMinimum(vt);
    MinMarkIsMinimum(vl);
    if exists j :: 0 <= j < |results| && SampleOf(results[j].1).Metrics? {
      var j :| 0 <= j < |results| && SampleOf(results[j].1).Metrics?;
      FilterMapInclude(results, ThroughputOf(), j);
      FilterMapInclude(results, LatencyOf(), j);
    } else {
      if vt != [] {
        var p := FilterMapOrigin(results, ThroughputOf(), vt[0]);
      }
      if vl != [] {
        var p := FilterMapOrigin(results, LatencyOf(), vl[0]);
      }
    }
  }
}
