# llm-performance-viz core in Dafny

This project models the three parts of the LLM performance tool that decide what it does with data.

- **The visualisation server's data provider** (`viz_server.py`). It parses the result file names (`test_in:<n>_out:<n>_proc:<n>_rand:<n>.json`) and the directory names (`<runtime>--<instance type>--<model>[.yaml]`). It loads one record per result file, with the statistics defaulting to 0 and the server throughput as a product. It answers the combinations, the test-parameters and the filtered, sorted performance-data queries. It also builds the runtime → instance type → model tree with row counts, and the `/api/stats` overview.
- **The vLLM deployment** (`deployment.py`). It covers the `docker run` command built from the configuration, and the container lifecycle over the Docker command line (`ps`, `stop`, `rm`, `run`). It also covers the health poll against a clock with its timeout, deploy and cleanup, and the API endpoints.
- **The automated runner** (`auto_test.py`). It covers:
  - the test-case names;
  - the test matrix expansion with its "random ≤ input" skip;
  - the result file of each case, and reuse of existing results;
  - the decision whether to deploy;
  - the test loop that reuses, runs or records a failure for each case;
  - the cleanup, which runs exactly after a successful deployment (a failed deployment raises before the loop, with no cleanup);
  - the best and worst throughput and latency summary.

The outside world is an oracle, in the class `Host.Machine` (`host.dfy`):
- Each Docker command gets a scripted exit status and output.
- Each health request gets a scripted status (or raises) and takes a scripted time.
- The clock only moves with requests and sleeps.
- The commands and requests made so far are logs that the methods append to.

The directory listing the data provider reads is a parameter: a sequence of entries, each with its files and their decoded JSON contents or a decode failure. The benchmark (`TestRunner`/`ResultAnalyzer`) is an oracle too: the outcome of the n-th run. The runner's result files are a map from path to decoded content.

Layout, one module per file:

| Module | Contents |
|---|---|
| `Wrappers` | `Option` |
| `Text` | digits, `str.split` / `str.join`, substring search |
| `Ordering` | string order, sorting, dedup, filter, filter-map, flatten, min/max |
| `JsonValue` | JSON values, truthiness, the chained `.get(…, {})` / `.get(…, 0)`, and `*` on JSON numbers |
| `ResultNames` | the two name parsers |
| `ResultRecords` | the record and the loader |
| `ResultQueries` | the read-only queries and the stats |
| `ResultTree` | the tree's specification |
| `VizServer` | the `ResultsDataProvider` class and the tree builder |
| `Host` | the oracle machine |
| `Deployment` | the deployment |
| `TestMatrix` | test cases |
| `TestSummary` | `_generate_summary` |
| `AutoTest` | `AutoTestRunner` |

## Model

| member | source | states |
|---|---|---|
| Text.NatToStringDigits | src/llm_test_tool/auto_test.py:28-29 | `str()` of a non-negative integer is a non-empty run of ASCII digits with no leading zero |
| Text.DigitsValueOfNatToString | src/llm_test_tool/auto_test.py:28-29 | reading back the digits `str()` writes for a non-negative integer gives that integer |
| Text.SplitPartsHoldNoSeparator | src/llm_test_tool/viz_server.py:46 | no piece of `dirname.split('--')` contains `--` |
| Text.JoinSplit | src/llm_test_tool/viz_server.py:46-47 | `'--'.join(s.split('--')) == s` |
| Text.IntToStringInjective | src/llm_test_tool/auto_test.py:28-29 | distinct integers, negative ones included, print differently |
| Text.IntToStringNoUnderscore | src/llm_test_tool/auto_test.py:28-29 | the text of an integer never holds `_`, the separator of the name's fields |
| Text.UnderscoreSplit | src/llm_test_tool/auto_test.py:28-29 | an underscore-free field followed by `_…` is recovered from the concatenation |
| Ordering.SortStrings | src/llm_test_tool/viz_server.py:289-307 | `sorted` of strings is strictly ascending in Python's code-point order and has exactly the input's elements |
| Ordering.SortInts | src/llm_test_tool/viz_server.py:146-148 | `sorted(..., key=int)` of integers is strictly ascending and has exactly the input's elements |
| Ordering.Dedup | src/llm_test_tool/viz_server.py:123 | dropping duplicates leaves no repeated element and the same set of elements |
| Ordering.Min | src/llm_test_tool/viz_server.py:342-344 | the column minimum is an element and at most every element |
| Ordering.Max | src/llm_test_tool/viz_server.py:342-344 | the column maximum is an element and at least every element |
| JsonValue.DigMissingIsZero | src/llm_test_tool/viz_server.py:88-107 | a `.get(k, {})…get(k', 0)` chain whose first key is missing yields 0 |
| JsonValue.DigAbsent | src/llm_test_tool/viz_server.py:88-107 | a chain that meets a missing key on a dictionary path yields 0 |
| JsonValue.DigPresent | src/llm_test_tool/viz_server.py:88-107 | a chain whose every key is present on a dictionary yields the value stored at its end, whatever other keys the document holds |
| JsonValue.Truthy | src/llm_test_tool/deployment.py:59-66 | Python truthiness of a configuration value; the optional flags' presence is stated in `Deployment.OptionalArgsRoundTrip` |
| JsonValue.Dig | src/llm_test_tool/viz_server.py:88-107 | a chain of `.get(k, {})` ending in `.get(k', 0)`; failure where a `.get` meets a non-dictionary; its properties are the three `Dig…` lemmas |
| JsonValue.MulUndefined | src/llm_test_tool/viz_server.py:106 | a `None` or dictionary factor makes the product raise, so the record is not loaded |
| ResultNames.ParseFilename | src/llm_test_tool/viz_server.py:30-42 | the start-anchored match of `test_in:(\d+)_out:(\d+)_proc:(\d+)_rand:(\d+)\.json`, greedy digit runs; characterised by `ParseFilenameComplete` and `ParseFilenameSound` |
| ResultNames.ParseDirectoryName | src/llm_test_tool/viz_server.py:44-58 | split on `--`, at least three parts, the rest rejoined and one `.yaml` stripped; characterised by the directory-name lemmas below |
| ResultNames.ParseFilenameComplete | src/llm_test_tool/viz_server.py:30-42 | `test_in:a_out:b_proc:c_rand:d.json` followed by anything parses to the four digit values (the pattern is anchored only at the start) |
| ResultNames.ParseFilenameSound | src/llm_test_tool/viz_server.py:30-42 | every name that parses has exactly that shape, and the result holds the values of its four digit runs |
| ResultNames.DirectoryNameFields | src/llm_test_tool/viz_server.py:44-58 | `r--i--m` for `--`-free `r` and `i` not ending in `-` parses to `(r, i, m)` with one trailing `.yaml` stripped from `m` |
| ResultNames.DirectoryNameRoundTrip | src/llm_test_tool/viz_server.py:44-58 | a directory name built from its three parts parses back to them when the model name does not end in `.yaml` |
| ResultNames.DirectoryNameYamlRoundTrip | src/llm_test_tool/viz_server.py:50-52 | a model name with `.yaml` appended comes back without it |
| ResultNames.ParseDirectoryNameSound | src/llm_test_tool/viz_server.py:44-58 | every directory name that parses is the `--` join of its runtime, instance type and model name, with or without `.yaml` |
| ResultNames.ParseDirectoryNamePlain | src/llm_test_tool/viz_server.py:46-56 | the parsed runtime and instance type never contain `--` and never end in `-` |
| ResultNames.ParseDirectoryNameNone | src/llm_test_tool/viz_server.py:46-58 | a directory name is rejected exactly when it does not have two separate `--` separators |
| ResultNames.TrailingDashMovesSeparator | src/llm_test_tool/viz_server.py:46-56 | a runtime ending in `-` does not survive the round trip: the dash moves to the instance type |
| ResultRecords.FileRecord | src/llm_test_tool/viz_server.py:72-111 | one file: glob, name parse, decode, record; an exception drops the file; stated by `FileRecordContents` and the absent-statistic lemmas |
| ResultRecords.DocumentRecord | src/llm_test_tool/viz_server.py:84-108 | the record built from a decoded document; stated by `DocumentRecordStats` |
| ResultRecords.LoadListing | src/llm_test_tool/viz_server.py:60-116 | the records of all directories of the listing, in order; stated by `LoadedRecordOrigin`, `LoadedRecordPresent` and `LoadedRecordsWellFormed` |
| ResultRecords.ColumnIndex | src/llm_test_tool/viz_server.py:159 | the column lookup finds the first column of that name, or reports that none has it |
| ResultRecords.FieldOfColumns | src/llm_test_tool/viz_server.py:159 | a record has a field exactly for the names of the DataFrame's columns |
| ResultRecords.StatValues | src/llm_test_tool/viz_server.py:88-106 | the statistics are defined exactly when every lookup chain is, and each is the value its chain yields |
| ResultRecords.FileRecordContents | src/llm_test_tool/viz_server.py:72-108 | a loaded record comes from a `test_*.json` file whose name parses and whose content decodes, and carries the directory's fields, the file's parameters and its path |
| ResultRecords.DocumentRecordStats | src/llm_test_tool/viz_server.py:84-108 | every statistic is its lookup chain's value and the server throughput is requests per second × mean total tokens |
| ResultRecords.AbsentStatisticIsZero | src/llm_test_tool/viz_server.py:88-106 | a statistic missing from the document loads as 0 |
| ResultRecords.AbsentFactorZeroThroughput | src/llm_test_tool/viz_server.py:106 | a file missing either factor loads with server throughput 0 |
| ResultRecords.DocumentAbsentFactor | src/llm_test_tool/viz_server.py:106 | a document missing either factor gives server throughput 0 |
| ResultRecords.DocumentUnmultipliableFactor | src/llm_test_tool/viz_server.py:106-113 | a request rate or mean token count stored as `null` or as an object makes the product raise, so the file gives no record |
| ResultRecords.EmptyDocumentLoadsZeros | src/llm_test_tool/viz_server.py:84-108 | the empty document `{}` loads with every statistic and the throughput 0 |
| ResultRecords.LoadedRecordOrigin | src/llm_test_tool/viz_server.py:63-111 | every loaded record is the record of some file of some listed directory |
| ResultRecords.DirRecordsHasFile | src/llm_test_tool/viz_server.py:72-111 | every file of a directory that yields a record contributes it |
| ResultRecords.LoadedRecordPresent | src/llm_test_tool/viz_server.py:63-111 | every file of the listing that yields a record is in the dataset |
| ResultRecords.LoadedRecordsWellFormed | src/llm_test_tool/viz_server.py:86-108 | every loaded record has all its columns |
| ResultQueries.Combinations | src/llm_test_tool/viz_server.py:118-132 | the combinations are the distinct (runtime, instance type, model) triples of the data, each with id `runtime--instance--model` |
| ResultQueries.CombinationIdParses | src/llm_test_tool/viz_server.py:131 | a combination's id parses back to its triple when the model name does not end in `.yaml` |
| ResultQueries.TestParameters | src/llm_test_tool/viz_server.py:134-137 | `{}` exactly on an empty dataset |
| ResultQueries.CombinationValues | src/llm_test_tool/viz_server.py:140-148 | a parameter list is ascending and holds exactly the values of that combination's records |
| ResultQueries.TestParametersListed | src/llm_test_tool/viz_server.py:134-149 | the input, output and random token lists are ascending and hold exactly the values of the combination's records |
| ResultQueries.Passes | src/llm_test_tool/viz_server.py:158-163 | one filter: skipped for a non-column or `None`, membership for a list, equality otherwise; stated by `UnknownKeyIgnored` and `KnownKeyFilters` |
| ResultQueries.MatchesAll | src/llm_test_tool/viz_server.py:157-163 | all filters in turn; stated by `MatchesAllEach` |
| ResultQueries.UnknownKeyIgnored | src/llm_test_tool/viz_server.py:158-159 | a filter on a name that is not a column keeps every record |
| ResultQueries.KnownKeyFilters | src/llm_test_tool/viz_server.py:158-163 | a non-null filter on a column keeps a record exactly when its field is in the list (list value) or equals the value |
| ResultQueries.MatchesAllEach | src/llm_test_tool/viz_server.py:158-163 | a record passes the filters exactly when it passes each of them |
| ResultQueries.SkippedFilter | src/llm_test_tool/viz_server.py:159 | a filter with a null value or on an unknown column leaves the rows untouched |
| ResultQueries.NoFilters | src/llm_test_tool/viz_server.py:155-158 | no filters leave every row |
| ResultQueries.InsertByProcesses | src/llm_test_tool/viz_server.py:167 | inserting into rows ascending by processes keeps them ascending and adds exactly that row |
| ResultQueries.SortByProcesses | src/llm_test_tool/viz_server.py:167 | sorting by processes yields an ascending permutation of the rows |
| ResultQueries.Range | src/llm_test_tool/viz_server.py:342-344 | `[min, max]` are elements and bound every element |
| ResultQueries.GetStats | src/llm_test_tool/viz_server.py:329-338 | 404 on an empty dataset; otherwise the total is the number of records and the combination count is the number of distinct triples |
| ResultQueries.GetStatsNames | src/llm_test_tool/viz_server.py:339-341 | runtimes, instance types and models are ascending and are exactly the values present |
| ResultQueries.ColumnRange | src/llm_test_tool/viz_server.py:342-344 | a column's range bounds every record's value and both ends are attained |
| ResultQueries.GetStatsRanges | src/llm_test_tool/viz_server.py:342-344 | the input, output and process ranges bound every record and both ends of each are attained |
| ResultTree.TreeOf | src/llm_test_tool/viz_server.py:287-325 | the specified tree: sorted runtime nodes, each with sorted instance nodes, each with sorted model nodes; stated by the label and count lemmas below |
| ResultTree.Count | src/llm_test_tool/viz_server.py:293-313 | the number of rows matching a node's path; stated by `OnRuntime`, `OnInstance` and `OnModel` |
| ResultTree.KeysMembers | src/llm_test_tool/viz_server.py:273-285 | the keys under a tree path are exactly the next identity fields of the records on that path |
| ResultTree.Labels | src/llm_test_tool/viz_server.py:289-307 | a node's children are listed in ascending order |
| ResultTree.LabelsMembers | src/llm_test_tool/viz_server.py:273-307 | a node's children are labelled exactly by the values present under that node |
| ResultTree.EmptyTree | src/llm_test_tool/viz_server.py:267-268 | an empty dataset gives an empty tree |
| ResultTree.OnRuntime | src/llm_test_tool/viz_server.py:293 | a runtime node counts exactly the rows with that runtime |
| ResultTree.OnInstance | src/llm_test_tool/viz_server.py:302 | an instance node counts exactly the rows with that runtime and instance type |
| ResultTree.OnModel | src/llm_test_tool/viz_server.py:311-313 | a model node counts exactly the rows with that runtime, instance type and model |
| ResultTree.TreeLabels | src/llm_test_tool/viz_server.py:288-325 | top-level nodes are strictly ascending by label and exist exactly for the runtimes present |
| ResultTree.InstanceLabels | src/llm_test_tool/viz_server.py:298-321 | a runtime's children are strictly ascending and exist exactly for its instance types present |
| ResultTree.ModelLabels | src/llm_test_tool/viz_server.py:307-319 | an instance node's children are strictly ascending and exist exactly for its models present |
| ResultTree.ChildCountsSum | src/llm_test_tool/viz_server.py:287-325 | the counts of a node's children add up to the node's count |
| ResultTree.RuntimeCountIsChildSum | src/llm_test_tool/viz_server.py:292-305 | a runtime node's count is the sum of its instance nodes' counts |
| ResultTree.InstanceCountIsChildSum | src/llm_test_tool/viz_server.py:301-315 | an instance node's count is the sum of its model nodes' counts |
| ResultTree.RuntimeCountsCoverData | src/llm_test_tool/viz_server.py:288-293 | the runtime nodes' counts add up to the number of rows |
| VizServer.SortedList | src/llm_test_tool/viz_server.py:289-307 | `sorted` over dictionary keys or a set is ascending with exactly those elements |
| VizServer.AddRow | src/llm_test_tool/viz_server.py:277-285 | adding a row puts its runtime, instance type and model in the nested grouping and changes nothing else |
| VizServer.AddModel | src/llm_test_tool/viz_server.py:277-285 | the in-place dictionary updates of one row give the grouping of `AddRow` |
| VizServer.GroupRows | src/llm_test_tool/viz_server.py:272-285 | the grouping loop's keys at each level are exactly the labels the tree's specification lists |
| VizServer.GroupLabels | src/llm_test_tool/viz_server.py:272-285 | a grouping that records every row has at each level exactly the tree's labels |
| VizServer.BuildModelNodes | src/llm_test_tool/viz_server.py:307-319 | the model loop builds exactly the specified model nodes of an instance node |
| VizServer.BuildInstanceNodes | src/llm_test_tool/viz_server.py:298-321 | the instance loop builds exactly the specified instance nodes of a runtime node |
| VizServer.BuildRuntimeNodes | src/llm_test_tool/viz_server.py:288-323 | the runtime loop builds exactly the specified runtime nodes |
| VizServer.BuildTree | src/llm_test_tool/viz_server.py:267-325 | the tree handler's result is the specified tree of the data |
| VizServer.ApplyFilters | src/llm_test_tool/viz_server.py:156-163 | the filter loop leaves exactly the rows that pass every filter, in order |
| VizServer.ResultsDataProvider.constructor | src/llm_test_tool/viz_server.py:24-28 | the directory defaults to `archive_results`, and the provider starts with the records loaded from it |
| VizServer.ResultsDataProvider.LoadAllResults | src/llm_test_tool/viz_server.py:60-116 | the dataset becomes exactly the records of the listing, in listing order |
| VizServer.ResultsDataProvider.LoadEntry | src/llm_test_tool/viz_server.py:63-70 | a directory entry appends its files' records when it is a directory whose name parses, and nothing otherwise |
| VizServer.ResultsDataProvider.AppendLoaded | src/llm_test_tool/viz_server.py:72-111 | the file loop appends exactly the records of the files that load, in order |
| VizServer.ResultsDataProvider.GetPerformanceData | src/llm_test_tool/viz_server.py:151-169 | `[]` on an empty dataset; otherwise the rows passing every filter, as a permutation ascending by processes |
| VizServer.ResultsDataProvider.GetTreeStructure | src/llm_test_tool/viz_server.py:261-325 | the handler reloads the dataset from the listing and returns the specified tree of it |
| Deployment.DockerCommand | src/llm_test_tool/deployment.py:32-68 | the `docker run` command of the configuration; stated by `DockerCommandLayout` and `OptionalArgsRoundTrip` |
| Deployment.ApiUrl | src/llm_test_tool/deployment.py:149-151 | the chat completions URL on the configured port; stated by `EndpointsMatchCommand` |
| Deployment.HealthUrl | src/llm_test_tool/deployment.py:119 | the health URL on the configured port; stated by `EndpointsMatchCommand` |
| Deployment.ModelId | src/llm_test_tool/deployment.py:153-155 | the configured model; stated by `EndpointsMatchCommand` |
| Deployment.Running | src/llm_test_tool/deployment.py:72-79 | `docker ps` exited 0 and its output contains the container name (a substring test) |
| Deployment.StopCommands | src/llm_test_tool/deployment.py:81-94 | `stop`, then `rm` only when `stop` exited 0; stated by `StopContract` |
| Deployment.StopSucceeds | src/llm_test_tool/deployment.py:81-94 | both commands exited 0; stated by `StopContract` |
| Deployment.StartCommands | src/llm_test_tool/deployment.py:96-115 | `ps`, the stop commands when running, then `run` unless the stop failed; stated by `StartContract` |
| Deployment.StartSucceeds | src/llm_test_tool/deployment.py:96-115 | the container was started; stated by `StartContract` |
| Deployment.VolumeArgs | src/llm_test_tool/deployment.py:44-45 | each volume becomes `-v <volume>`, in order |
| Deployment.DockerCommandLayout | src/llm_test_tool/deployment.py:32-68 | the command's fixed prefix, volume pairs, image, model arguments and optional flags sit at their positions |
| Deployment.OptionalArgsRoundTrip | src/llm_test_tool/deployment.py:59-66 | the optional flags can be read back: both switches as their truthiness and both parser names |
| Deployment.BuildDockerCommand | src/llm_test_tool/deployment.py:32-68 | the step-by-step construction yields the specified command |
| Deployment.EndpointsMatchCommand | src/llm_test_tool/deployment.py:149-155 | the API and health URLs use the port passed to `--port`, and the model id is the value passed to `--model` |
| Deployment.StopContract | src/llm_test_tool/deployment.py:81-94 | stopping succeeds exactly when `docker stop` and then `docker rm` both exit 0, and `rm` is issued only after a successful `stop` |
| Deployment.StartContract | src/llm_test_tool/deployment.py:96-115 | start first asks `docker ps`; runs the container unless a running one cannot be stopped; succeeds exactly when `docker run` is the last command and exits 0 |
| Deployment.HealthLoop | src/llm_test_tool/deployment.py:122-136 | the poll never goes back in time, and gives up only once the timeout has passed |
| Deployment.HealthyFromPoll | src/llm_test_tool/deployment.py:122-128 | a poll started before the deadline that gets 200 makes the wait healthy |
| Deployment.PollFromHealthy | src/llm_test_tool/deployment.py:122-136 | a healthy wait had a poll started before the deadline that got 200 |
| Deployment.NoTimeNoPoll | src/llm_test_tool/deployment.py:123 | a wait with no time left makes no request and reports failure |
| Deployment.DeployRun | src/llm_test_tool/deployment.py:138-143 | deployment is healthy only after a successful start; a failed start makes no health request, takes no time and reports failure |
| Deployment.VllmDeployment.constructor | src/llm_test_tool/deployment.py:17-30 | the deployment holds its configuration and its machine |
| Deployment.VllmDeployment.IsContainerRunning | src/llm_test_tool/deployment.py:70-79 | issues `docker ps --filter name=<name>` and reports whether the name is in its output, false on a non-zero exit |
| Deployment.VllmDeployment.StopContainer | src/llm_test_tool/deployment.py:81-94 | issues the stop commands and reports their success |
| Deployment.VllmDeployment.StartContainer | src/llm_test_tool/deployment.py:96-115 | issues the start commands and reports their success; no request is made and no time passes |
| Deployment.VllmDeployment.WaitForHealth | src/llm_test_tool/deployment.py:117-136 | requests the health URL until a 200 or the timeout; the result, clock and requests are those of the specified poll |
| Deployment.VllmDeployment.Deploy | src/llm_test_tool/deployment.py:138-143 | start, then wait for health only when the start succeeded; commands, requests, clock and result are as specified |
| Deployment.VllmDeployment.Cleanup | src/llm_test_tool/deployment.py:145-147 | cleanup is the stop: its commands and result |
| TestMatrix.Name | src/llm_test_tool/auto_test.py:28-29 | `in:<i>_out:<o>_proc:<p>_rand:<r>`; stated by `NameInjective` |
| TestMatrix.ResultFileName | src/llm_test_tool/auto_test.py:98 | `test_<name>.json`; stated by `ResultFileParses` |
| TestMatrix.OutputFile | src/llm_test_tool/auto_test.py:98 | the result file inside the output directory; stated by `AutoTest.DistinctResultPaths` |
| TestMatrix.TestCases | src/llm_test_tool/auto_test.py:68-86 | the matrix expansion, input outermost, skipping random > input; stated by `TestCasesMembers`, `TestCasesCount` and `TestCasesOrder` |
| TestMatrix.ResultFileParses | src/llm_test_tool/auto_test.py:98 | a case with non-negative fields has a result file name the server's glob and filename parser accept, giving back the case's four fields |
| TestMatrix.NameInjective | src/llm_test_tool/auto_test.py:28-29 | distinct cases have distinct names, for any integers |
| TestMatrix.GenerateTestCases | src/llm_test_tool/auto_test.py:68-86 | the four nested loops yield the specified case list |
| TestMatrix.OutputCases | src/llm_test_tool/auto_test.py:72-85 | the output-token loop yields its block |
| TestMatrix.ProcessCases | src/llm_test_tool/auto_test.py:73-85 | the process loop yields its block |
| TestMatrix.RandomCases | src/llm_test_tool/auto_test.py:74-85 | the random-token loop yields the cases whose random tokens do not exceed the input tokens |
| TestMatrix.TestCasesMembers | src/llm_test_tool/auto_test.py:68-86 | a case is generated exactly when its four values come from the matrix and random ≤ input |
| TestMatrix.TestCasesBound | src/llm_test_tool/auto_test.py:68-86 | at most the product of the four list lengths cases are generated |
| TestMatrix.TestCasesCount | src/llm_test_tool/auto_test.py:68-86 | when no random value exceeds an input value, exactly the product is generated |
| TestMatrix.TestCasesOrder | src/llm_test_tool/auto_test.py:71-85 | then the case for indices (a,b,c,d) sits at the row-major position, input varying slowest |
| TestSummary.SampleOf | src/llm_test_tool/auto_test.py:286-296 | what the loop reads from one result: nothing, the three metrics, or an exception |
| TestSummary.SummaryOf | src/llm_test_tool/auto_test.py:266-317 | the summary of the results in order; stated by `SummaryShape` and the best/worst lemmas |
| TestSummary.MaxMarkIsMaximum | src/llm_test_tool/auto_test.py:276-308 | a "keep the higher" tracker from 0 ends at least every value and at least 0, with an empty case name while still 0 |
| TestSummary.MaxMarkFirst | src/llm_test_tool/auto_test.py:298-308 | a tracker that moved off its start holds the first occurrence of its value |
| TestSummary.MinMarkIsMinimum | src/llm_test_tool/auto_test.py:277-306 | a "keep the lower" tracker from infinity stays infinite exactly on no values and ends at most every value |
| TestSummary.MinMarkFirst | src/llm_test_tool/auto_test.py:277-306 | it then holds the first occurrence of the minimum |
| TestSummary.GenerateSummary | src/llm_test_tool/auto_test.py:266-317 | the summary loop yields the specified summary |
| TestSummary.TrackSample | src/llm_test_tool/auto_test.py:298-308 | one result moves the best/worst throughput and latency trackers with strict comparisons |
| TestSummary.SummaryShape | src/llm_test_tool/auto_test.py:266-280 | `{}` exactly for no results; the total is the number of results; an exception exactly when some result cannot be read |
| TestSummary.BestThroughputIsFirstMaximum | src/llm_test_tool/auto_test.py:276-300 | a set best throughput is positive, is the throughput of a named result, is at least every throughput, and belongs to the first result reaching it |
| TestSummary.WorstLatencyIsFirstMaximum | src/llm_test_tool/auto_test.py:279-308 | the same for the worst latency |
| TestSummary.BestThroughputUnset | src/llm_test_tool/auto_test.py:276-300 | the best throughput stays `{0, ""}` exactly when no result has a positive throughput |
| TestSummary.WorstThroughputIsFirstMinimum | src/llm_test_tool/auto_test.py:277-302 | a finite worst throughput is at most every recorded throughput and names the first result that reached it |
| TestSummary.BestLatencyIsFirstMinimum | src/llm_test_tool/auto_test.py:278-306 | a finite best latency is at most every recorded end-to-end latency and names the first result that reached it |
| TestSummary.MinimaUnset | src/llm_test_tool/auto_test.py:277-306 | worst throughput and best latency stay infinite exactly when no result has metrics |
| AutoTest.Existing | src/llm_test_tool/auto_test.py:119-133 | a result file's decoded content, or None when missing, undecodable or `null`; used by `AutoTestRunner.LoadExistingResult` |
| AutoTest.Remaining | src/llm_test_tool/auto_test.py:189-196 | `remaining_tests`; stated by `RunLoopRunsRemaining` and `AutoTestRunner.RemainingTests` |
| AutoTest.Step | src/llm_test_tool/auto_test.py:224-238 | one iteration: reuse, run and record, or record the failure; stated by `StepPartition` |
| AutoTest.RunLoop | src/llm_test_tool/auto_test.py:216-238 | the loop over all cases; stated by the `RunLoop…` lemmas |
| AutoTest.AutoTestRunner.NeedsDeployment | src/llm_test_tool/auto_test.py:203 | some case remains and deployment is not skipped; used by `RunAllTests` |
| AutoTest.Put | src/llm_test_tool/auto_test.py:229-234 | `all_results[name] = r` keeps a present key's place, adds a new key last, keeps keys distinct and leaves other entries alone |
| AutoTest.StepPartition | src/llm_test_tool/auto_test.py:224-238 | one loop step files the case under the results or the failures, never both |
| AutoTest.RunLoopPartition | src/llm_test_tool/auto_test.py:216-238 | with distinct names, results and failures partition the case names, and every skipped name is a result |
| AutoTest.RunLoopRunsAll | src/llm_test_tool/auto_test.py:221-234 | without skipping, every case is run, in order, and none is skipped |
| AutoTest.RunLoopAllExisting | src/llm_test_tool/auto_test.py:226-231 | when every result exists, nothing is run, no file changes and every case is skipped |
| AutoTest.RunLoopRunsRemaining | src/llm_test_tool/auto_test.py:189-238 | with distinct result files, the loop runs exactly `remaining_tests` cases and touches no file but the cases' own |
| AutoTest.RunLoopNothingRemaining | src/llm_test_tool/auto_test.py:205-231 | with nothing remaining, nothing runs or fails and every case is skipped |
| AutoTest.DistinctResultPaths | src/llm_test_tool/auto_test.py:98 | distinct case names give distinct result files |
| AutoTest.DistinctCasesDistinctNames | src/llm_test_tool/auto_test.py:28-29 | distinct cases have distinct names, for any integers |
| AutoTest.AutoTestRunner.constructor | src/llm_test_tool/auto_test.py:35-66 | the output directory defaults to `test_results/<timestamp>` and the cases are the generated matrix |
| AutoTest.AutoTestRunner.LoadExistingResult | src/llm_test_tool/auto_test.py:119-133 | a case's existing result is its decoded file; None when missing, undecodable or `null` |
| AutoTest.AutoTestRunner.RunSingleTest | src/llm_test_tool/auto_test.py:135-179 | runs the bench once; a completed run saves its analysis to the case's file, a failure changes no file |
| AutoTest.AutoTestRunner.CountExisting | src/llm_test_tool/auto_test.py:189-196 | counts exactly the cases whose result can be reused |
| AutoTest.AutoTestRunner.RemainingTests | src/llm_test_tool/auto_test.py:189-200 | `remaining_tests` is all cases, less the reusable ones when skipping existing results |
| AutoTest.AutoTestRunner.RunCases | src/llm_test_tool/auto_test.py:216-238 | the test loop's results, failures, skips, files and runs are the specified loop's |
| AutoTest.AutoTestRunner.RunAndSummarise | src/llm_test_tool/auto_test.py:216-254 | the loop, then the stop commands exactly when cleanup is due, then the summary of the results |
| AutoTest.AutoTestRunner.DeployAndRun | src/llm_test_tool/auto_test.py:209-244 | a failed deploy raises with no test run and no cleanup; a successful one runs the loop and then stops the container |
| AutoTest.AutoTestRunner.RunAllTests | src/llm_test_tool/auto_test.py:181-264 | deploys exactly when some case remains and deployment is not skipped; otherwise no command, request or time; cleans up exactly after a successful deploy |

## Left out

- Floating point: JSON numbers are integers. The averages of `_generate_summary` and `/api/stats` are not modelled, and `gpu_memory_utilization` is carried as the text `str()` gives for it.
- JsonValue.Mul: `*` of a string or list by an integer (repetition) is treated as not a number; the record then fails to load.
- ResultNames.ParseFilename: only ASCII digits are read as digits; Python's `\d` also takes other Unicode digits.
- ResultNames.DirectoryNameRoundTrip: holds only for runtime and instance-type parts that do not end in `-`; `TrailingDashMovesSeparator` shows why.
- `.yml` model names are not stripped, as in the code.
- Paths are plain strings joined with `/`; no normalisation of `Path` objects.
- Python's `1 == True` in the filters' equality is not modelled; bools and numbers compare as different values.
- TestSummary.SampleOf: a boolean metric is read as 1 or 0, so the summary records that number where Python would store `True` or `False` as the value.
- pandas: the DataFrame is the record list. `unique`, `drop_duplicates` and `sort_values` are modelled by their contents. The tie order of the unstable sort is not fixed; the model states only an ascending permutation.
- The `type` field of the tree nodes is not stored: it follows from the node's kind.
- The comparison endpoint, the HTTP routes and their JSON encoding, the HTML index and all printing are not part of this model.
- `TestRunner`, `ResultAnalyzer` and `TestConfig` are not part of this model. The runs are an oracle giving the n-th run's outcome, and warmup, cooldown sleeps and the analysis are inside it.
- Reading the configuration file (YAML or JSON) and `mkdir` of the output directory are left out; the configuration is a parameter.
- Of the subprocess errors, only a non-zero exit (`CalledProcessError`) is modelled; a missing `docker` binary, which raises another exception, is not.
- Deployment.VllmDeployment.WaitForHealth: a request's duration and each sleep are exact whole seconds. Docker commands take no clock time.
- Parser names in the configuration are plain strings; an empty string stands for an absent or falsy value.
- AutoTest.AutoTestRunner.LoadExistingResult: read errors other than a decode failure (permissions, a directory in the file's place) are not modelled.
- AutoTest.AutoTestRunner.RunSingleTest: a run that fails is assumed to leave the result files as they were.
- `comprehensive_results.json` is not written; the report returned holds its results, failures, skips and summary.
- AutoTest.AutoTestRunner.RunAllTests / RunAndSummarise / DeployAndRun: an exception escaping the test loop (`KeyboardInterrupt`, or one raised outside the inner `try`) is not modelled, so the `finally` cleanup at auto_test.py:240-244 is modelled only on the normal path. A failed deploy raises at auto_test.py:211-212, before the `try` at line 220, so no cleanup runs then even though `need_deployment` holds; the model does the same.
- TestSummary.GenerateSummary: a result that makes the summary raise gives `SummaryRaised`; the exception is not propagated further.
- TestSummary.SummaryOf: a non-numeric first-token latency, which raises only at the final `sum`, counts as an unreadable result like the other two metrics.
- AutoTest.AutoTestRunner.constructor: the case names and result files are fixed when the runner is built, since the output directory never changes afterwards.
