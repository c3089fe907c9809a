/**
 * Record normalisation in `ResultsDataProvider.load_all_results`: every result
 * file of a well-named directory becomes one flat record holding the directory's
 * and the file name's identity fields, the statistics read out of the nested
 * `statistics`/`metadata` objects with 0 for anything missing, and the derived
 * server throughput. The directory listing and the decoded file contents are
 * inputs.
 */
module ResultRecords {
  import opened Wrappers
  import opened Text
  import opened JsonValue
  import opened ResultNames
  import opened Ordering

  /** A chain of dictionary keys. */
  type KeyPath = p: seq<string> | |p| > 0 witness ["statistics"]

  /** A statistic column of the flat record and the chain of keys it is read from. */
  datatype Column = Column(name: string, path: KeyPath)

  /** The statistic columns, in the order the record lists them. */
  const StatColumns: seq<Column> := [
    Column("first_token_latency_mean", ["statistics", "first_token_latency", "mean"]),
    Column("first_token_latency_p50", ["statistics", "first_token_latency", "p50"]),
    Column("first_token_latency_p90", ["statistics", "first_token_latency", "p90"]),
    Column("first_token_latency_min", ["statistics", "first_token_latency", "min"]),
    Column("first_token_latency_max", ["statistics", "first_token_latency", "max"]),
    Column("end_to_end_latency_mean", ["statistics", "end_to_end_latency", "mean"]),
    Column("end_to_end_latency_p50", ["statistics", "end_to_end_latency", "p50"]),
    Column("end_to_end_latency_p90", ["statistics", "end_to_end_latency", "p90"]),
    Column("output_tokens_per_second_mean", ["statistics", "output_tokens_per_second", "mean"]),
    Column("output_tokens_per_second_p50", ["statistics", "output_tokens_per_second", "p50"]),
    Column("output_tokens_per_second_p90", ["statistics", "output_tokens_per_second", "p90"]),
    Column("output_tokens_per_second_min", ["statistics", "output_tokens_per_second", "min"]),
    Column("output_tokens_per_second_max", ["statistics", "output_tokens_per_second", "max"]),
    Column("success_rate", ["statistics", "success_rate"]),
    Column("requests_per_second", ["metadata", "requests_per_second"]),
    Column("total_requests", ["metadata", "total_requests"]),
    Column("successful_requests", ["statistics", "successful_requests"]),
    Column("failed_requests", ["statistics", "failed_requests"]),
    Column("total_tokens_mean", ["statistics", "token_usage", "total_tokens", "mean"])
  ]

  /** Positions in `StatColumns` of the two factors of the server throughput. */
  const RateIndex: nat := 14
  const TokensIndex: nat := 18

  /** The identity columns taken from the directory and the file name. */
  const IdentityColumns: seq<string> :=
    ["runtime", "instance_type", "model_name", "input_tokens", "output_tokens", "processes", "random_tokens"]

  /** One flat record: `stats[k]` is the value of `StatColumns[k]`. */
  datatype Record = Record(
    info: DirInfo,
    params: TestParams,
    stats: seq<Json>,
    throughput: Json,
    filePath: string)

  /** A record with one value per statistic column, as every loaded record is. */
  predicate WellFormed(r: Record)
  {
    |r.stats| == |StatColumns|
  }

  /** A file as the listing shows it: its name and its decoded body, None when it cannot be read or decoded. */
  datatype FileEntry = FileEntry(name: string, content: Option<Json>)

  /** An entry of the results directory; `files` are the entries inside it. */
  datatype DirEntry = DirEntry(name: string, isDir: bool, files: seq<FileEntry>)

  /** The first position of the column called `key`. */
  function ColumnIndex(cols: seq<Column>, key: string): (r: Option<nat>)
    ensures r.Some? ==> r.value < |cols| && cols[r.value].name == key
    ensures r.Some? ==> forall j :: 0 <= j < r.value ==> cols[j].name != key
    ensures r.None? ==> forall j :: 0 <= j < |cols| ==> cols[j].name != key
  {
    if cols == [] then None
    else if cols[0].name == key then Some(0)
    else match ColumnIndex(cols[1..], key)
      case None => None
      case Some(k) => Some(k + 1)
  }

  /** The names of the DataFrame's columns. */
  predicate IsColumn(key: string)
  {
    key in IdentityColumns || ColumnIndex(StatColumns, key).Some? ||
    key == "server_throughput" || key == "file_path"
  }

  /** `record[key]`, None when the record has no such column. */
  function FieldOf(r: Record, key: string): Option<Json>
  {
    if key == "runtime" then Some(JStr(r.info.runtime))
    else if key == "instance_type" then Some(JStr(r.info.instanceType))
    else if key == "model_name" then Some(JStr(r.info.modelName))
    else if key == "input_tokens" then Some(JNum(r.params.inputTokens))
    else if key == "output_tokens" then Some(JNum(r.params.outputTokens))
    else if key == "processes" then Some(JNum(r.params.processes))
    else if key == "random_tokens" then Some(JNum(r.params.randomTokens))
    else if key == "server_throughput" then Some(r.throughput)
    else if key == "file_path" then Some(JStr(r.filePath))
    else match ColumnIndex(StatColumns, key)
      case Some(k) => if k < |r.stats| then Some(r.stats[k]) else None
      case None => None
  }

  /** A well-formed record has exactly the DataFrame's columns. */
  lemma FieldOfColumns(r: Record, key: string)
    requires WellFormed(r)
    ensures FieldOf(r, key).Some? <==> IsColumn(key)
  {
    assert key in IdentityColumns <==>
      key == "runtime" || key == "instance_type" || key == "model_name" || key == "input_tokens" ||
      key == "output_tokens" || key == "processes" || key == "random_tokens";
  }

  /** Every field read with its chained `.get` defaults; None when some lookup raises. */
  function StatValues(doc: Json, cols: seq<Column>): (r: Option<seq<Json>>)
    ensures r.Some? <==> forall k :: 0 <= k < |cols| ==> Dig(doc, cols[k].path).Some?
    ensures r.Some? ==> |r.value| == |cols|
    ensures r.Some? ==> forall k :: 0 <= k < |cols| ==> r.value[k] == Dig(doc, cols[k].path).value
  {
    if cols == [] then Some([])
    else
      var last := cols[|cols| - 1];
      match (StatValues(doc, cols[..|cols| - 1]), Dig(doc, last.path))
      case (Some(vs), Some(v)) => Some(vs + [v])
      case _ => None
  }

  /** `Path.glob("test_*.json")` on a name. */
  predicate GlobMatch(name: string)
  {
    |name| >= 10 && StartsWith(name, "test_") && EndsWith(name, ".json")
  }

  /** `str(results_dir / dir_name / file_name)`. */
  function FilePath(resultsDir: string, dirName: string, fileName: string): string
  {
    resultsDir + "/" + dirName + "/" + fileName
  }

  /**
   * The record one file of directory `dirName` (parsed as `info`) yields, or None
   * when the file is skipped: its name does not match the glob or the pattern, it
   * cannot be read or decoded, or one of the lookups or the product raises.
   */
  function FileRecord(resultsDir: string, dirName: string, info: DirInfo, f: FileEntry): Option<Record>
  {
    if !GlobMatch(f.name) then None
    else match ParseFilename(f.name)
      case None => None
      case Some(params) =>
        match f.content
        case None => None
        case Some(doc) => DocumentRecord(info, params, doc, FilePath(resultsDir, dirName, f.name))
  }

  /** The record built from a decoded file body; None when a lookup or the product raises. */
  function DocumentRecord(info: DirInfo, params: TestParams, doc: Json, path: string): Option<Record>
  {
    match StatValues(doc, StatColumns)
    case None => None
    case Some(stats) =>
      match Mul(stats[RateIndex], stats[TokensIndex])
      case None => None
      case Some(t) => Some(Record(info, params, stats, t, path))
  }

  /** The per-file step of the loading loop, as a function value. */
  function FileLoader(resultsDir: string, dirName: string, info: DirInfo): FileEntry -> Option<Record>
  {
    f => FileRecord(resultsDir, dirName, info, f)
  }

  /** The records of the files `files` of one directory, in listing order. */
  function FileRecords(resultsDir: string, dirName: string, info: DirInfo, files: seq<FileEntry>): seq<Record>
  {
    FilterMap(files, FileLoader(resultsDir, dirName, info))
  }

  /** The records one entry of the results directory contributes. */
  function DirRecords(resultsDir: string, e: DirEntry): seq<Record>
  {
    if !e.isDir then []
    else match ParseDirectoryName(e.name)
      case None => []
      case Some(info) => FileRecords(resultsDir, e.name, info, e.files)
  }

  /** The per-entry step of the loading loop, as a function value. */
  function DirLoader(resultsDir: string): DirEntry -> seq<Record>
  {
    e => DirRecords(resultsDir, e)
  }

  /** The dataset `load_all_results` leaves in `self.data`. */
  function LoadListing(resultsDir: string, listing: seq<DirEntry>): seq<Record>
  {
    Flatten(listing, DirLoader(resultsDir))
  }

  /** Loading one more entry of the listing appends that entry's records. */
  lemma LoadListingPrefixStep(resultsDir: string, listing: seq<DirEntry>, k: nat)
    requires k < |listing|
    ensures LoadListing(resultsDir, listing[..k + 1]) == LoadListing(resultsDir, listing[..k]) + DirRecords(resultsDir, listing[k])
  {
    FlattenPrefixStep(listing, DirLoader(resultsDir), k);
  }

  /** The record file `j` of entry `k` yields, when both exist and it is not skipped. */
  function RecordAt(resultsDir: string, listing: seq<DirEntry>, k: nat, j: nat): Option<Record>
  {
    if k < |listing| && j < |listing[k].files| && listing[k].isDir && ParseDirectoryName(listing[k].name).Some? then
      FileRecord(resultsDir, listing[k].name, ParseDirectoryName(listing[k].name).value, listing[k].files[j])
    else None
  }

  /** What a file's record holds besides its statistics: the identity fields and the path. */
  lemma FileRecordContents(resultsDir: string, dirName: string, info: DirInfo, f: FileEntry)
    requires FileRecord(resultsDir, dirName, info, f).Some?
    ensures var r := FileRecord(resultsDir, dirName, info, f).value;
            && GlobMatch(f.name) && f.content.Some?
            && r.info == info
            && ParseFilename(f.name) == Some(r.params)
            && r.filePath == FilePath(resultsDir, dirName, f.name)
            && r == DocumentRecord(info, r.params, f.content.value, r.filePath).value
  {
  }

  /**
   * A record's statistics: one value per column, each read with its defaults,
   * and the product of the request rate and the mean total tokens.
   */
  lemma DocumentRecordStats(info: DirInfo, params: TestParams, doc: Json, path: string)
    requires DocumentRecord(info, params, doc, path).Some?
    ensures var r := DocumentRecord(info, params, doc, path).value;
            && r.info == info && r.params == params && r.filePath == path
            && WellFormed(r)
            && (forall k :: 0 <= k < |StatColumns| ==> Dig(doc, StatColumns[k].path) == Some(r.stats[k]))
            && Mul(r.stats[RateIndex], r.stats[TokensIndex]) == Some(r.throughput)
  {
  }

  /** A statistic whose chain of keys breaks off anywhere is 0 in the record. */
  lemma AbsentStatisticIsZero(resultsDir: string, dirName: string, info: DirInfo, f: FileEntry, k: nat)
    requires FileRecord(resultsDir, dirName, info, f).Some?
    requires k < |StatColumns| && f.content.Some? && Absent(f.content.value, StatColumns[k].path)
    ensures FileRecord(resultsDir, dirName, info, f).value.stats[k] == JNum(0)
  {
    FileRecordContents(resultsDir, dirName, info, f);
    var r := FileRecord(resultsDir, dirName, info, f).value;
    DocumentRecordStats(info, r.params, f.content.value, r.filePath);
    DigAbsent(f.content.value, StatColumns[k].path);
  }

  /** Server throughput with the same zero defaults: 0 once either factor is absent. */
  lemma AbsentFactorZeroThroughput(resultsDir: string, dirName: string, info: DirInfo, f: FileEntry)
    requires FileRecord(resultsDir, dirName, info, f).Some? && f.content.Some?
    requires Absent(f.content.value, StatColumns[RateIndex].path) ||
             Absent(f.content.value, StatColumns[TokensIndex].path)
    ensures FileRecord(resultsDir, dirName, info, f).value.throughput == JNum(0)
  {
    FileRecordContents(resultsDir, dirName, info, f);
    var r := FileRecord(resultsDir, dirName, info, f).value;
    DocumentAbsentFactor(info, r.params, f.content.value, r.filePath);
  }

  /** The same for a decoded file body. */
  lemma DocumentAbsentFactor(info: DirInfo, params: TestParams, doc: Json, path: string)
    requires DocumentRecord(info, params, doc, path).Some?
    requires Absent(doc, StatColumns[RateIndex].path) || Absent(doc, StatColumns[TokensIndex].path)
    ensures DocumentRecord(info, params, doc, path).value.throughput == JNum(0)
  {
    DocumentRecordStats(info, params, doc, path);
    var r := DocumentRecord(info, params, doc, path).value;
    if Absent(doc, StatColumns[RateIndex].path) {
      DigAbsent(doc, StatColumns[RateIndex].path);
      assert r.stats[RateIndex] == JNum(0);
    } else {
      DigAbsent(doc, StatColumns[TokensIndex].path);
      assert r.stats[TokensIndex] == JNum(0);
    }
  }

  /** A rate or token factor stored as `null` or as an object makes the product raise, so the file yields no record. */
  lemma DocumentUnmultipliableFactor(info: DirInfo, params: TestParams, doc: Json, path: string, v: Json)
    requires v.JNull? || v.JObj?
    requires Present(doc, StatColumns[RateIndex].path, v) || Present(doc, StatColumns[TokensIndex].path, v)
    ensures DocumentRecord(info, params, doc, path).None?
  {
    if Present(doc, StatColumns[RateIndex].path, v) {
      DigPresent(doc, StatColumns[RateIndex].path, v);
    } else {
      DigPresent(doc, StatColumns[TokensIndex].path, v);
    }
  }

  /** A file holding an empty object loads, with every statistic and the throughput 0. */
  lemma EmptyDocumentLoadsZeros(info: DirInfo, params: TestParams, path: string)
    ensures var r := DocumentRecord(info, params, JObj(map[]), path);
            && r.Some?
            && (forall k :: 0 <= k < |r.value.stats| ==> r.value.stats[k] == JNum(0))
            && r.value.throughput == JNum(0)
  {
    var doc := JObj(map[]);
    forall k | 0 <= k < |StatColumns| ensures Dig(doc, StatColumns[k].path) == Some(JNum(0)) {
      DigMissingIsZero(doc, StatColumns[k].path);
    }
    var stats := StatValues(doc, StatColumns).value;
    assert stats[RateIndex] == JNum(0) && stats[TokensIndex] == JNum(0);
  }

  /**
   * Every loaded record comes from a file of an entry that is a directory with a
   * parseable name: non-directories, unparseable names and skipped files add nothing.
   */
  lemma LoadedRecordOrigin(resultsDir: string, listing: seq<DirEntry>, r: Record)
    returns (k: nat, j: nat)
    requires r in LoadListing(resultsDir, listing)
    ensures RecordAt(resultsDir, listing, k, j) == Some(r)
  {
    k := FlattenOrigin(listing, DirLoader(resultsDir), r);
    var e := listing[k];
    var info := ParseDirectoryName(e.name).value;
    j := FilterMapOrigin(e.files, FileLoader(resultsDir, e.name, info), r);
  }

  /** A file of a directory with a parseable name that is not skipped is among the directory's records. */
  lemma DirRecordsHasFile(resultsDir: string, e: DirEntry, j: nat)
    requires e.isDir && ParseDirectoryName(e.name).Some? && j < |e.files|
    requires FileRecord(resultsDir, e.name, ParseDirectoryName(e.name).value, e.files[j]).Some?
    ensures FileRecord(resultsDir, e.name, ParseDirectoryName(e.name).value, e.files[j]).value in DirRecords(resultsDir, e)
  {
    FilterMapInclude(e.files, FileLoader(resultsDir, e.name, ParseDirectoryName(e.name).value), j);
  }

  /** Every file that is not skipped contributes its record. */
  lemma LoadedRecordPresent(resultsDir: string, listing: seq<DirEntry>, k: nat, j: nat)
    requires RecordAt(resultsDir, listing, k, j).Some?
    ensures RecordAt(resultsDir, listing, k, j).value in LoadListing(resultsDir, listing)
  {
    DirRecordsHasFile(resultsDir, listing[k], j);
    FlattenInclude(listing, DirLoader(resultsDir), k, RecordAt(resultsDir, listing, k, j).value);
  }

  /** Every loaded record is well formed, so it has every column. */
  lemma {:induction false} LoadedRecordsWellFormed(resultsDir: string, listing: seq<DirEntry>)
    ensures forall r :: r in LoadListing(resultsDir, listing) ==> WellFormed(r)
  {
    forall r | r in LoadListing(resultsDir, listing) ensures WellFormed(r) {
      var k, j := LoadedRecordOrigin(resultsDir, listing, r);
      var e := listing[k];
      FileRecordContents(resultsDir, e.name, ParseDirectoryName(e.name).value, e.files[j]);
      DocumentRecordStats(r.info, r.params, e.files[j].content.value, r.filePath);
    }
  }
}
