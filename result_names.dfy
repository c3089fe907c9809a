/**
 * The naming conventions that identify a benchmark artifact: the directory
 * `<runtime>--<instance type>--<model>[.yaml]` and the file
 * `test_in:<N>_out:<N>_proc:<N>_rand:<N>.json`.
 */
module ResultNames {
  import opened Wrappers
  import opened Text

  /** The four numeric parameters of a benchmark run, as the file name encodes them. */
  datatype TestParams = TestParams(inputTokens: nat, outputTokens: nat, processes: nat, randomTokens: nat)

  /** The deployment a result directory belongs to. */
  datatype DirInfo = DirInfo(runtime: string, instanceType: string, modelName: string)

  /** What one `(\d+)` group can match. */
  predicate DigitField(a: string) { |a| > 0 && AllDigits(a) }

  /** `lead` followed by `(\d+)`: the group's integer value and the text after it. */
  function Field(s: string, lead: string): Option<(nat, string)>
  {
    if !StartsWith(s, lead) then None
    else
      var body := s[|lead|..];
      var k := DigitRun(body);
      if k == 0 then None else Some((DigitsValue(body[..k]), body[k..]))
  }

  lemma FieldOfDigits(lead: string, a: string, rest: string)
    requires DigitField(a)
    requires rest == [] || !IsDigit(rest[0])
    ensures Field(lead + (a + rest), lead) == Some((DigitsValue(a), rest))
  {
    var s := lead + (a + rest);
    assert s[..|lead|] == lead;
    assert s[|lead|..] == a + rest;
    DigitRunOfDigits(a, rest);
    assert (a + rest)[..|a|] == a;
    assert (a + rest)[|a|..] == rest;
  }

  lemma FieldWitness(s: string, lead: string) returns (a: string)
    requires Field(s, lead).Some?
    ensures DigitField(a)
    ensures s == lead + (a + Field(s, lead).value.1)
    ensures Field(s, lead).value.0 == DigitsValue(a)
  {
    var body := s[|lead|..];
    var k := DigitRun(body);
    a := body[..k];
    assert s == s[..|lead|] + body;
    assert body == a + body[k..];
  }

  /** `re.match(r'test_in:(\d+)_out:(\d+)_proc:(\d+)_rand:(\d+)\.json', name)` and the four `int(...)`s. */
  function ParseFilename(name: string): Option<TestParams>
  {
    match Field(name, "test_in:")
    case None => None
    case Some((i, rest)) => ParseFromOut(i, rest)
  }

  function ParseFromOut(i: nat, s: string): Option<TestParams>
  {
    match Field(s, "_out:")
    case None => None
    case Some((o, rest)) => ParseFromProc(i, o, rest)
  }

  function ParseFromProc(i: nat, o: nat, s: string): Option<TestParams>
  {
    match Field(s, "_proc:")
    case None => None
    case Some((p, rest)) => ParseFromRand(i, o, p, rest)
  }

  function ParseFromRand(i: nat, o: nat, p: nat, s: string): Option<TestParams>
  {
    match Field(s, "_rand:")
    case None => None
    case Some((d, rest)) => if StartsWith(rest, ".json") then Some(TestParams(i, o, p, d)) else None
  }

  /**
   * The text the pattern matches, given the four digit groups, followed by `tail`
   * (the match is anchored at the start only).
   */
  function FileName(a: string, b: string, c: string, d: string, tail: string): string
  {
    "test_in:" + (a + ("_out:" + (b + ("_proc:" + (c + ("_rand:" + (d + (".json" + tail))))))))
  }

  /** Any four digit groups, followed by anything at all. */
  lemma ParseFilenameComplete(a: string, b: string, c: string, d: string, tail: string)
    requires DigitField(a) && DigitField(b) && DigitField(c) && DigitField(d)
    ensures ParseFilename(FileName(a, b, c, d, tail))
         == Some(TestParams(DigitsValue(a), DigitsValue(b), DigitsValue(c), DigitsValue(d)))
  {
    var r4 := ".json" + tail;
    var r3 := "_rand:" + (d + r4);
    var r2 := "_proc:" + (c + r3);
    var r1 := "_out:" + (b + r2);
    FieldOfDigits("_rand:", d, r4);
    assert ParseFromRand(DigitsValue(a), DigitsValue(b), DigitsValue(c), r3)
        == Some(TestParams(DigitsValue(a), DigitsValue(b), DigitsValue(c), DigitsValue(d))) by {
      assert r4[..5] == ".json";
    }
    FieldOfDigits("_proc:", c, r3);
    FieldOfDigits("_out:", b, r2);
    FieldOfDigits("test_in:", a, r1);
  }

  lemma RandStageSound(i: nat, o: nat, p: nat, s: string) returns (d: string, tail: string)
    requires ParseFromRand(i, o, p, s).Some?
    ensures DigitField(d) && s == "_rand:" + (d + (".json" + tail))
    ensures ParseFromRand(i, o, p, s).value == TestParams(i, o, p, DigitsValue(d))
  {
    var f := Field(s, "_rand:").value;
    d := FieldWitness(s, "_rand:");
    tail := f.1[5..];
    assert f.1 == f.1[..5] + tail;
  }

  lemma ProcStageSound(i: nat, o: nat, s: string) returns (c: string, d: string, tail: string)
    requires ParseFromProc(i, o, s).Some?
    ensures DigitField(c) && DigitField(d) && s == "_proc:" + (c + ("_rand:" + (d + (".json" + tail))))
    ensures ParseFromProc(i, o, s).value == TestParams(i, o, DigitsValue(c), DigitsValue(d))
  {
    var f := Field(s, "_proc:").value;
    c := FieldWitness(s, "_proc:");
    d, tail := RandStageSound(i, o, f.0, f.1);
  }

  lemma OutStageSound(i: nat, s: string) returns (b: string, c: string, d: string, tail: string)
    requires ParseFromOut(i, s).Some?
    ensures DigitField(b) && DigitField(c) && DigitField(d)
    ensures s == "_out:" + (b + ("_proc:" + (c + ("_rand:" + (d + (".json" + tail))))))
    ensures ParseFromOut(i, s).value == TestParams(i, DigitsValue(b), DigitsValue(c), DigitsValue(d))
  {
    var f := Field(s, "_out:").value;
    b := FieldWitness(s, "_out:");
    c, d, tail := ProcStageSound(i, f.0, f.1);
  }

  /** A name is accepted only if it starts with the pattern; the result holds the groups' values in order. */
  lemma ParseFilenameSound(name: string) returns (a: string, b: string, c: string, d: string, tail: string)
    requires ParseFilename(name).Some?
    ensures DigitField(a) && DigitField(b) && DigitField(c) && DigitField(d)
    ensures name == FileName(a, b, c, d, tail)
    ensures ParseFilename(name).value
         == TestParams(DigitsValue(a), DigitsValue(b), DigitsValue(c), DigitsValue(d))
  {
    var f := Field(name, "test_in:").value;
    a := FieldWitness(name, "test_in:");
    b, c, d, tail := OutStageSound(f.0, f.1);
  }

  /** `model_name[:-5]` when it ends in `.yaml`; `.yml` and other suffixes stay. */
  function StripYaml(m: string): string
  {
    if EndsWith(m, ".yaml") then m[..|m| - 5] else m
  }

  /** `dirname.split('--')`: runtime, instance type, and the rest rejoined as the model name. */
  function ParseDirectoryName(dirname: string): Option<DirInfo>
  {
    var parts := Split(dirname, "--");
    if |parts| >= 3 then Some(DirInfo(parts[0], parts[1], StripYaml(Join(parts[2..], "--"))))
    else None
  }

  /** The directory name `{runtime}--{instance_type}--{model}`. */
  function DirName(r: string, i: string, m: string): string
  {
    r + "--" + (i + "--" + m)
  }

  lemma DirectoryNameRoundTrip(r: string, i: string, m: string)
    requires PlainSegment(r) && PlainSegment(i)
    requires !EndsWith(m, ".yaml")
    ensures ParseDirectoryName(DirName(r, i, m)) == Some(DirInfo(r, i, m))
  {
    DirectoryNameFields(r, i, m);
  }

  /** The `.yaml` that a config file name leaves on the directory is dropped, and only that. */
  lemma DirectoryNameYamlRoundTrip(r: string, i: string, m: string)
    requires PlainSegment(r) && PlainSegment(i)
    ensures ParseDirectoryName(DirName(r, i, m + ".yaml")) == Some(DirInfo(r, i, m))
  {
    var my := m + ".yaml";
    DirectoryNameFields(r, i, my);
    assert my[|my| - 5..] == ".yaml";
    assert my[..|my| - 5] == m;
  }

  /** Parsing the joined fields gives back the first two and the whole model name, `.yaml` stripped. */
  lemma DirectoryNameFields(r: string, i: string, m: string)
    requires PlainSegment(r) && PlainSegment(i)
    ensures ParseDirectoryName(DirName(r, i, m)) == Some(DirInfo(r, i, StripYaml(m)))
  {
    var tail := Split(m, "--");
    SplitAfterPlainSegment(i, m);
    SplitAfterPlainSegment(r, i + "--" + m);
    var parts := Split(DirName(r, i, m), "--");
    assert parts == [r] + ([i] + tail);
    assert parts[2..] == tail;
    JoinSplit(m, "--");
  }

  /** Every accepted name is the three fields joined by `--`, possibly with `.yaml` after the model. */
  lemma ParseDirectoryNameSound(dirname: string)
    requires ParseDirectoryName(dirname).Some?
    ensures var info := ParseDirectoryName(dirname).value;
            || dirname == DirName(info.runtime, info.instanceType, info.modelName)
            || dirname == DirName(info.runtime, info.instanceType, info.modelName + ".yaml")
  {
    var parts := Split(dirname, "--");
    JoinSplit(dirname, "--");
    var j := Join(parts[2..], "--");
    assert Join(parts, "--") == parts[0] + "--" + Join(parts[1..], "--");
    assert parts[1..][1..] == parts[2..];
    assert Join(parts[1..], "--") == parts[1] + "--" + j;
    assert dirname == DirName(parts[0], parts[1], j);
    var m := StripYaml(j);
    if EndsWith(j, ".yaml") {
      assert j == m + ".yaml";
    }
  }

  /** The runtime and the instance type of an accepted name hold no `--` and do not end in `-`. */
  lemma ParseDirectoryNamePlain(dirname: string)
    requires ParseDirectoryName(dirname).Some?
    ensures PlainSegment(ParseDirectoryName(dirname).value.runtime)
    ensures PlainSegment(ParseDirectoryName(dirname).value.instanceType)
  {
    SplitFirstPiecePlain(dirname);
    var i := SplitFound(dirname, "--");
    SplitFirstPiecePlain(dirname[i + 2..]);
  }

  /** `s` holds two non-overlapping `--`, the first at `i` and the second at `j`. */
  predicate SeparatorsAt(s: string, i: nat, j: nat)
  {
    OccursAt(s, "--", i) && OccursAt(s, "--", j) && i + 2 <= j
  }

  lemma ThreePartsFromSeparators(s: string, i: nat, j: nat)
    requires SeparatorsAt(s, i, j)
    ensures |Split(s, "--")| >= 3
  {
    var i0 := IndexOf(s, "--").value;
    assert i0 <= i;
    var rest := s[i0 + 2..];
    OccursAtSuffix(s, "--", i0 + 2, j - i0 - 2);
    assert OccursAt(rest, "--", j - i0 - 2) && j - i0 - 2 <= |rest|;
    var i1 := IndexOf(rest, "--").value;
    assert Split(rest, "--") == [rest[..i1]] + Split(rest[i1 + 2..], "--");
    assert Split(s, "--") == [s[..i0]] + Split(rest, "--");
  }

  lemma SeparatorsFromThreeParts(s: string) returns (i: nat, j: nat)
    requires |Split(s, "--")| >= 3
    ensures SeparatorsAt(s, i, j)
  {
    i := SplitFound(s, "--");
    var rest := s[i + 2..];
    var i1 := SplitFound(rest, "--");
    OccursAtSuffix(s, "--", i + 2, i1);
    j := i + 2 + i1;
  }

  /** A name is rejected exactly when it lacks two non-overlapping `--`. */
  lemma ParseDirectoryNameNone(dirname: string)
    ensures ParseDirectoryName(dirname).None? <==> !exists i: nat, j: nat :: SeparatorsAt(dirname, i, j)
  {
    if exists i: nat, j: nat :: SeparatorsAt(dirname, i, j) {
      var i: nat, j: nat :| SeparatorsAt(dirname, i, j);
      ThreePartsFromSeparators(dirname, i, j);
    }
    if |Split(dirname, "--")| >= 3 {
      var i, j := SeparatorsFromThreeParts(dirname);
    }
  }

  /**
   * Why the round trips ask for segments that do not end in `-`: in
   * `{runtime}---{instance_type}...` the first `--` is found one character early,
   * so the runtime loses its trailing `-` and the instance type gains one in front
   * (`a---b--c` parses as `a`, `-b`, `c`).
   */
  lemma TrailingDashMovesSeparator(r: string, i: string, m: string)
    requires PlainSegment(r) && PlainSegment("-" + i) && !EndsWith(m, ".yaml")
    ensures ParseDirectoryName(DirName(r + "-", i, m)) == Some(DirInfo(r, "-" + i, m))
    ensures ParseDirectoryName(DirName(r + "-", i, m)) != Some(DirInfo(r + "-", i, m))
  {
    assert DirName(r + "-", i, m) == DirName(r, "-" + i, m);
    DirectoryNameRoundTrip(r, "-" + i, m);
    assert |r + "-"| != |r|;
  }
}
