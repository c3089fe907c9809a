/**
 * The test matrix of the automated runner: a test case, its name and result
 * file, and the expansion of the four configured lists into test cases.
 */
module TestMatrix {
  import opened Wrappers
  import opened Text
  import opened Ordering
  import opened ResultNames
  import opened ResultRecords

  /** One point of the matrix. */
  datatype TestCase = TestCase(inputTokens: int, outputTokens: int, processingNum: int, randomTokens: int)

  /** `str(test_case)`. */
  function Name(tc: TestCase): string
  {
    "in:" + (IntToString(tc.inputTokens) + ("_out:" + (IntToString(tc.outputTokens) +
    ("_proc:" + (IntToString(tc.processingNum) + ("_rand:" + IntToString(tc.randomTokens)))))))
  }

  /** The file name the test's result is saved under. */
  function ResultFileName(tc: TestCase): string
  {
    "test_" + (Name(tc) + ".json")
  }

  /** The `output_file` of `_create_test_config`: the result file inside the output directory. */
  function OutputFile(outputDir: string, tc: TestCase): string
  {
    outputDir + "/" + ResultFileName(tc)
  }

  predicate NonNegative(tc: TestCase)
  {
    tc.inputTokens >= 0 && tc.outputTokens >= 0 && tc.processingNum >= 0 && tc.randomTokens >= 0
  }

  /**
   * The result file of a test case is picked up by the results browser: it
   * matches the glob, and parsing its name gives back the test's four numbers.
   */
  lemma ResultFileParses(tc: TestCase)
    requires NonNegative(tc)
    ensures GlobMatch(ResultFileName(tc))
    ensures ParseFilename(ResultFileName(tc))
         == Some(TestParams(tc.inputTokens, tc.outputTokens, tc.processingNum, tc.randomTokens))
  {
    ResultFileNameFields(tc);
    DigitsValueOfNatToString(tc.inputTokens);
    DigitsValueOfNatToString(tc.outputTokens);
    DigitsValueOfNatToString(tc.processingNum);
    DigitsValueOfNatToString(tc.randomTokens);
    ParseFilenameComplete(NatToString(tc.inputTokens), NatToString(tc.outputTokens),
                          NatToString(tc.processingNum), NatToString(tc.randomTokens), "");
    WrappedMatchesGlob(Name(tc));
  }

  /** The result file name of a case with non-negative numbers spells out its four numbers' digits. */
  lemma ResultFileNameFields(tc: TestCase)
    requires NonNegative(tc)
    ensures ResultFileName(tc) == FileName(NatToString(tc.inputTokens), NatToString(tc.outputTokens),
                                           NatToString(tc.processingNum), NatToString(tc.randomTokens), "")
  {
    var a, b := NatToString(tc.inputTokens), NatToString(tc.outputTokens);
    var c, d := NatToString(tc.processingNum), NatToString(tc.randomTokens);
    var s4 := "_rand:" + d;
    var s3 := "_proc:" + (c + s4);
    var s2 := "_out:" + (b + s3);
    var s1 := a + s2;
    assert Name(tc) == "in:" + s1;
    var j := ".json";
    AppendAssoc("_rand:", d, j);
    AppendAssoc(c, s4, j);
    AppendAssoc("_proc:", c + s4, j);
    AppendAssoc(b, s3, j);
    AppendAssoc("_out:", b + s3, j);
    AppendAssoc(a, s2, j);
    AppendAssoc("in:", s1, j);
    AppendAssoc("test_", "in:", s1 + j);
    assert d + j == d + (j + "");
  }

  /** Concatenation regroups. */
  lemma AppendAssoc<T>(x: seq<T>, y: seq<T>, z: seq<T>)
    ensures (x + y) + z == x + (y + z)
  {
  }

  /** Every name of the form `test_<x>.json` matches the glob. */
  lemma WrappedMatchesGlob(x: string)
    ensures GlobMatch("test_" + (x + ".json"))
  {
    var name := "test_" + (x + ".json");
    assert name[..5] == "test_";
    assert name[|name| - 5..] == ".json";
  }

  /** Distinct test cases have distinct names, so they key distinct results. */
  lemma NameInjective(t1: TestCase, t2: TestCase)
    requires Name(t1) == Name(t2)
    ensures t1 == t2
  {
    var a1, b1, c1, d1 := IntToString(t1.inputTokens), IntToString(t1.outputTokens),
                          IntToString(t1.processingNum), IntToString(t1.randomTokens);
    var a2, b2, c2, d2 := IntToString(t2.inputTokens), IntToString(t2.outputTokens),
                          IntToString(t2.processingNum), IntToString(t2.randomTokens);
    IntToStringNoUnderscore(t1.inputTokens);
    IntToStringNoUnderscore(t2.inputTokens);
    IntToStringNoUnderscore(t1.outputTokens);
    IntToStringNoUnderscore(t2.outputTokens);
    IntToStringNoUnderscore(t1.processingNum);
    IntToStringNoUnderscore(t2.processingNum);
    var r1 := "_out:" + (b1 + ("_proc:" + (c1 + ("_rand:" + d1))));
    var r2 := "_out:" + (b2 + ("_proc:" + (c2 + ("_rand:" + d2))));
    assert a1 + r1 == Name(t1)[3..];
    assert a2 + r2 == Name(t2)[3..];
    UnderscoreSplit(a1, r1, a2, r2);
    var q1, q2 := "_proc:" + (c1 + ("_rand:" + d1)), "_proc:" + (c2 + ("_rand:" + d2));
    assert b1 + q1 == r1[5..];
    assert b2 + q2 == r2[5..];
    UnderscoreSplit(b1, q1, b2, q2);
    var p1, p2 := "_rand:" + d1, "_rand:" + d2;
    assert c1 + p1 == q1[6..];
    assert c2 + p2 == q2[6..];
    UnderscoreSplit(c1, p1, c2, p2);
    assert d1 == p1[6..];
    assert d2 == p2[6..];
    IntToStringInjective(t1.inputTokens, t2.inputTokens);
    IntToStringInjective(t1.outputTokens, t2.outputTokens);
    IntToStringInjective(t1.processingNum, t2.processingNum);
    IntToStringInjective(t1.randomTokens, t2.randomTokens);
  }

  /** The innermost loop's step: the case for `random`, or None when it exceeds the input length. */
  function RandomCase(input: int, output: int, processes: int): int -> Option<TestCase>
  {
    random => if random > input then None else Some(TestCase(input, output, processes, random))
  }

  /** The cases of one (input, output, processes) triple, in the order of the random lengths. */
  function ProcessBlock(input: int, output: int, randoms: seq<int>): int -> seq<TestCase>
  {
    processes => FilterMap(randoms, RandomCase(input, output, processes))
  }

  /** The cases of one (input, output) pair. */
  function OutputBlock(input: int, processes: seq<int>, randoms: seq<int>): int -> seq<TestCase>
  {
    output => Flatten(processes, ProcessBlock(input, output, randoms))
  }

  /** The cases of one input length. */
  function InputBlock(outputs: seq<int>, processes: seq<int>, randoms: seq<int>): int -> seq<TestCase>
  {
    input => Flatten(outputs, OutputBlock(input, processes, randoms))
  }

  /** What `_generate_test_cases` returns, defined level by level. */
  function TestCases(inputs: seq<int>, outputs: seq<int>, processes: seq<int>, randoms: seq<int>): seq<TestCase>
  {
    Flatten(inputs, InputBlock(outputs, processes, randoms))
  }

  /** `_generate_test_cases`: four nested loops, skipping the cases whose random length exceeds the input length. */
  method GenerateTestCases(inputs: seq<int>, outputs: seq<int>, processes: seq<int>, randoms: seq<int>)
    returns (cases: seq<TestCase>)
    ensures cases == TestCases(inputs, outputs, processes, randoms)
  {
    cases := [];
    var a := 0;
    while a < |inputs|
      invariant 0 <= a <= |inputs|
      invariant cases == Flatten(inputs[..a], InputBlock(outputs, processes, randoms))
    {
      var input := inputs[a];
      var block := OutputCases(input, outputs, processes, randoms);
      FlattenPrefixStep(inputs, InputBlock(outputs, processes, randoms), a);
      cases := cases + block;
      a := a + 1;
    }
    assert inputs[..a] == inputs;
  }

  /** The second loop, for one input length. */
  method OutputCases(input: int, outputs: seq<int>, processes: seq<int>, randoms: seq<int>)
    returns (cases: seq<TestCase>)
    ensures cases == InputBlock(outputs, processes, randoms)(input)
  {
    cases := [];
    var b := 0;
    while b < |outputs|
      invariant 0 <= b <= |outputs|
      invariant cases == Flatten(outputs[..b], OutputBlock(input, processes, randoms))
    {
      var output := outputs[b];
      var block := ProcessCases(input, output, processes, randoms);
      FlattenPrefixStep(outputs, OutputBlock(input, processes, randoms), b);
      cases := cases + block;
      b := b + 1;
    }
    assert outputs[..b] == outputs;
  }

  /** The third loop, for one (input, output) pair. */
  method ProcessCases(input: int, output: int, processes: seq<int>, randoms: seq<int>)
    returns (cases: seq<TestCase>)
    ensures cases == OutputBlock(input, processes, randoms)(output)
  {
    cases := [];
    var c := 0;
    while c < |processes|
      invariant 0 <= c <= |processes|
      invariant cases == Flatten(processes[..c], ProcessBlock(input, output, randoms))
    {
      var p := processes[c];
      var block := RandomCases(input, output, p, randoms);
      FlattenPrefixStep(processes, ProcessBlock(input, output, randoms), c);
      cases := cases + block;
      c := c + 1;
    }
    assert processes[..c] == processes;
  }

  /** The innermost loop: one case per random length that does not exceed the input length. */
  method RandomCases(input: int, output: int, p: int, randoms: seq<int>) returns (cases: seq<TestCase>)
    ensures cases == ProcessBlock(input, output, randoms)(p)
  {
    cases := [];
    var d := 0;
    while d < |randoms|
      invariant 0 <= d <= |randoms|
      invariant cases == FilterMap(randoms[..d], RandomCase(input, output, p))
    {
      var random := randoms[d];
      if random <= input {
        cases := cases + [TestCase(input, output, p, random)];
      }
      FilterMapPrefixStep(randoms, RandomCase(input, output, p), d);
      d := d + 1;
    }
    assert randoms[..d] == randoms;
  }

  /** The generated cases are exactly the points of the matrix whose random length does not exceed the input length. */
  lemma TestCasesMembers(inputs: seq<int>, outputs: seq<int>, processes: seq<int>, randoms: seq<int>, tc: TestCase)
    ensures tc in TestCases(inputs, outputs, processes, randoms) <==>
      && tc.inputTokens in inputs && tc.outputTokens in outputs
      && tc.processingNum in processes && tc.randomTokens in randoms
      && tc.randomTokens <= tc.inputTokens
  {
    var ib := InputBlock(outputs, processes, randoms);
    if tc in TestCases(inputs, outputs, processes, randoms) {
      var a := FlattenOrigin(inputs, ib, tc);
      var i := inputs[a];
      var b := FlattenOrigin(outputs, OutputBlock(i, processes, randoms), tc);
      var o := outputs[b];
      var c := FlattenOrigin(processes, ProcessBlock(i, o, randoms), tc);
      var p := processes[c];
      var d := FilterMapOrigin(randoms, RandomCase(i, o, p), tc);
      assert tc == TestCase(i, o, p, randoms[d]);
    }
    if && tc.inputTokens in inputs && tc.outputTokens in outputs
       && tc.processingNum in processes && tc.randomTokens in randoms
       && tc.randomTokens <= tc.inputTokens
    {
      var i, o, p, r := tc.inputTokens, tc.outputTokens, tc.processingNum, tc.randomTokens;
      var a :| 0 <= a < |inputs| && inputs[a] == i;
      var b :| 0 <= b < |outputs| && outputs[b] == o;
      var c :| 0 <= c < |processes| && processes[c] == p;
      var d :| 0 <= d < |randoms| && randoms[d] == r;
      FilterMapInclude(randoms, RandomCase(i, o, p), d);
      FlattenInclude(processes, ProcessBlock(i, o, randoms), c, tc);
      FlattenInclude(outputs, OutputBlock(i, processes, randoms), b, tc);
      FlattenInclude(inputs, ib, a, tc);
    }
  }

  /** There are at most as many cases as points of the matrix. */
  lemma TestCasesBound(inputs: seq<int>, outputs: seq<int>, processes: seq<int>, randoms: seq<int>)
    ensures |TestCases(inputs, outputs, processes, randoms)| <= |inputs| * (|outputs| * (|processes| * |randoms|))
  {
    var L3 := |randoms|;
    var L2 := |processes| * L3;
    var L1 := |outputs| * L2;
    forall a | 0 <= a < |inputs| ensures |InputBlock(outputs, processes, randoms)(inputs[a])| <= L1 {
      var i := inputs[a];
      forall b | 0 <= b < |outputs| ensures |OutputBlock(i, processes, randoms)(outputs[b])| <= L2 {
        var o := outputs[b];
        forall c | 0 <= c < |processes| ensures |ProcessBlock(i, o, randoms)(processes[c])| <= L3 {
          FilterMapLength(randoms, RandomCase(i, o, processes[c]));
        }
        FlattenLengthBound(processes, ProcessBlock(i, o, randoms), L3);
      }
      FlattenLengthBound(outputs, OutputBlock(i, processes, randoms), L2);
    }
    FlattenLengthBound(inputs, InputBlock(outputs, processes, randoms), L1);
  }

  /** No random length exceeds any input length. */
  predicate RandomsFit(inputs: seq<int>, randoms: seq<int>)
  {
    forall a, d :: 0 <= a < |inputs| && 0 <= d < |randoms| ==> randoms[d] <= inputs[a]
  }

  /** No random length exceeds `input`. */
  predicate FitsInput(input: int, randoms: seq<int>)
  {
    forall d :: 0 <= d < |randoms| ==> randoms[d] <= input
  }

  /** A full innermost block: one case per random length, in order. */
  lemma ProcessBlockAt(input: int, output: int, p: int, randoms: seq<int>, d: nat)
    requires FitsInput(input, randoms)
    ensures |ProcessBlock(input, output, randoms)(p)| == |randoms|
    ensures d < |randoms| ==> ProcessBlock(input, output, randoms)(p)[d] == TestCase(input, output, p, randoms[d])
  {
    FilterMapEvery(randoms, RandomCase(input, output, p));
  }

  /** A full block for one (input, output) pair: the process counts in order, each followed by its random lengths. */
  lemma OutputBlockAt(input: int, output: int, processes: seq<int>, randoms: seq<int>, c: nat, d: nat)
    requires FitsInput(input, randoms)
    ensures |OutputBlock(input, processes, randoms)(output)| == |processes| * |randoms|
    ensures c < |processes| && d < |randoms| ==>
      && c * |randoms| + d < |processes| * |randoms|
      && OutputBlock(input, processes, randoms)(output)[c * |randoms| + d]
         == TestCase(input, output, processes[c], randoms[d])
  {
    var pb := ProcessBlock(input, output, randoms);
    forall c' | 0 <= c' < |processes| ensures |pb(processes[c'])| == |randoms| {
      ProcessBlockAt(input, output, processes[c'], randoms, 0);
    }
    FlattenLengthExact(processes, pb, |randoms|);
    if c < |processes| && d < |randoms| {
      ProcessBlockAt(input, output, processes[c], randoms, d);
      FlattenUniformAt(processes, pb, |randoms|, c, d);
    }
  }

  /** A full block for one input length. */
  lemma InputBlockAt(input: int, outputs: seq<int>, processes: seq<int>, randoms: seq<int>, b: nat, c: nat, d: nat)
    requires FitsInput(input, randoms)
    ensures |InputBlock(outputs, processes, randoms)(input)| == |outputs| * (|processes| * |randoms|)
    ensures b < |outputs| && c < |processes| && d < |randoms| ==>
      && b * (|processes| * |randoms|) + (c * |randoms| + d) < |outputs| * (|processes| * |randoms|)
      && InputBlock(outputs, processes, randoms)(input)[b * (|processes| * |randoms|) + (c * |randoms| + d)]
         == TestCase(input, outputs[b], processes[c], randoms[d])
  {
    var L2 := |processes| * |randoms|;
    var ob := OutputBlock(input, processes, randoms);
    forall b' | 0 <= b' < |outputs| ensures |ob(outputs[b'])| == L2 {
      OutputBlockAt(input, outputs[b'], processes, randoms, 0, 0);
    }
    FlattenLengthExact(outputs, ob, L2);
    if b < |outputs| && c < |processes| && d < |randoms| {
      OutputBlockAt(input, outputs[b], processes, randoms, c, d);
      FlattenUniformAt(outputs, ob, L2, b, c * |randoms| + d);
    }
  }

  /** When every random length fits every input length, every input block is full. */
  lemma InputBlocksFull(inputs: seq<int>, outputs: seq<int>, processes: seq<int>, randoms: seq<int>)
    requires RandomsFit(inputs, randoms)
    ensures forall a :: 0 <= a < |inputs| ==>
      |InputBlock(outputs, processes, randoms)(inputs[a])| == |outputs| * (|processes| * |randoms|)
  {
    forall a | 0 <= a < |inputs|
      ensures |InputBlock(outputs, processes, randoms)(inputs[a])| == |outputs| * (|processes| * |randoms|)
    {
      InputBlockAt(inputs[a], outputs, processes, randoms, 0, 0, 0);
    }
  }

  /** When every random length fits every input length, there is one case per point of the matrix. */
  lemma TestCasesCount(inputs: seq<int>, outputs: seq<int>, processes: seq<int>, randoms: seq<int>)
    requires RandomsFit(inputs, randoms)
    ensures |TestCases(inputs, outputs, processes, randoms)| == |inputs| * (|outputs| * (|processes| * |randoms|))
  {
    InputBlocksFull(inputs, outputs, processes, randoms);
    FlattenLengthExact(inputs, InputBlock(outputs, processes, randoms), |outputs| * (|processes| * |randoms|));
  }

  /** The position of the case for the indices `(a, b, c, d)` in a matrix with no skipped case. */
  function Position(outputs: seq<int>, processes: seq<int>, randoms: seq<int>, a: nat, b: nat, c: nat, d: nat): nat
  {
    a * (|outputs| * (|processes| * |randoms|)) + (b * (|processes| * |randoms|) + (c * |randoms| + d))
  }

  /**
   * Nested-loop order: when every random length fits every input length, the
   * case for the indices `(a, b, c, d)` is at its `Position`, that is, input
   * lengths vary slowest and random lengths fastest.
   */
  lemma TestCasesOrder(inputs: seq<int>, outputs: seq<int>, processes: seq<int>, randoms: seq<int>,
                       a: nat, b: nat, c: nat, d: nat)
    requires RandomsFit(inputs, randoms)
    requires a < |inputs| && b < |outputs| && c < |processes| && d < |randoms|
    ensures Position(outputs, processes, randoms, a, b, c, d) < |TestCases(inputs, outputs, processes, randoms)|
    ensures TestCases(inputs, outputs, processes, randoms)[Position(outputs, processes, randoms, a, b, c, d)]
         == TestCase(inputs[a], outputs[b], processes[c], randoms[d])
  {
    var L1 := |outputs| * (|processes| * |randoms|);
    InputBlocksFull(inputs, outputs, processes, randoms);
    InputBlockAt(inputs[a], outputs, processes, randoms, b, c, d);
    FlattenUniformAt(inputs, InputBlock(outputs, processes, randoms), L1,
                     a, b * (|processes| * |randoms|) + (c * |randoms| + d));
  }
}
