/**
 * `ResultsDataProvider`: the dataset it holds, its reload, the filtered query of
 * `get_performance_data`, and the tree building of the `/api/tree-structure`
 * handler. The read-only queries are the functions of `ResultQueries` applied to
 * `data`.
 */
module VizServer {
  import opened Wrappers
  import opened JsonValue
  import opened Ordering
  import opened ResultNames
  import opened ResultRecords
  import opened ResultQueries
  import opened ResultTree

  /** `sorted(keys)`: the elements of `s`, ascending. */
  method SortedList(s: set<string>) returns (r: seq<string>)
    ensures SortedStrings(r)
    ensures forall x :: x in r <==> x in s
  {
    r := [];
    var rest := s;
    while rest != {}
      invariant rest <= s
      invariant SortedStrings(r)
      invariant forall x :: x in r <==> x in s && x !in rest
      decreases |rest|
    {
      var x :| x in rest;
      r := InsertString(x, r);
      rest := rest - {x};
    }
  }

  type Groups = map<string, map<string, set<string>>>

  /** The nested dictionary of sets `tree[runtime][instance_type]` holds exactly the models of `rows`. */
  ghost predicate GroupsOf(groups: Groups, rows: seq<Record>)
  {
    RuntimesOf(groups, rows) && InstancesOf(groups, rows) && ModelsOf(groups, rows)
  }

  ghost predicate RuntimesOf(groups: Groups, rows: seq<Record>)
  {
    forall rt :: rt in groups <==> exists j :: 0 <= j < |rows| && rows[j].info.runtime == rt
  }

  ghost predicate InstancesOf(groups: Groups, rows: seq<Record>)
  {
    forall rt, it :: rt in groups ==>
      (it in groups[rt] <==>
       exists j :: 0 <= j < |rows| && rows[j].info.runtime == rt && rows[j].info.instanceType == it)
  }

  ghost predicate ModelsOf(groups: Groups, rows: seq<Record>)
  {
    forall rt, it, m :: rt in groups && it in groups[rt] ==>
      (m in groups[rt][it] <==> exists j :: 0 <= j < |rows| && rows[j].info == DirInfo(rt, it, m))
  }

  /** The dictionary after `tree[rt][it].add(m)`, creating the missing levels. */
  function AddRow(groups: Groups, info: DirInfo): (g: Groups)
    ensures info.runtime in g && info.instanceType in g[info.runtime]
    ensures g.Keys == groups.Keys + {info.runtime}
    ensures forall rt, it :: rt in g ==>
              (it in g[rt] <==> (rt == info.runtime && it == info.instanceType) || (rt in groups && it in groups[rt]))
    ensures forall rt, it, m :: rt in g && it in g[rt] ==>
              (m in g[rt][it] <==> DirInfo(rt, it, m) == info || (rt in groups && it in groups[rt] && m in groups[rt][it]))
  {
    var inner := if info.runtime in groups then groups[info.runtime] else map[];
    var ms := if info.instanceType in inner then inner[info.instanceType] else {};
    groups[info.runtime := inner[info.instanceType := ms + {info.modelName}]]
  }

  lemma RuntimesStep(groups: Groups, rows: seq<Record>, x: Record)
    requires RuntimesOf(groups, rows)
    ensures RuntimesOf(AddRow(groups, x.info), rows + [x])
  {
    var rows' := rows + [x];
    forall rt ensures rt in AddRow(groups, x.info) <==> exists j :: 0 <= j < |rows'| && rows'[j].info.runtime == rt {
      if rt == x.info.runtime {
        assert rows'[|rows|].info.runtime == rt;
      } else if rt in groups {
        var j :| 0 <= j < |rows| && rows[j].info.runtime == rt;
        assert rows'[j].info == rows[j].info;
      } else {
        forall j | 0 <= j < |rows'| ensures rows'[j].info.runtime != rt {
          if j < |rows| { assert rows'[j].info == rows[j].info; }
        }
      }
    }
  }

  lemma InstancesStep(groups: Groups, rows: seq<Record>, x: Record)
    requires RuntimesOf(groups, rows) && InstancesOf(groups, rows)
    ensures InstancesOf(AddRow(groups, x.info), rows + [x])
  {
    var rows' := rows + [x];
    var g := AddRow(groups, x.info);
    forall rt, it | rt in g
      ensures it in g[rt] <==> exists j :: 0 <= j < |rows'| && rows'[j].info.runtime == rt && rows'[j].info.instanceType == it
    {
      if rt == x.info.runtime && it == x.info.instanceType {
        assert rows'[|rows|].info.runtime == rt && rows'[|rows|].info.instanceType == it;
      } else if rt in groups && it in groups[rt] {
        var j :| 0 <= j < |rows| && rows[j].info.runtime == rt && rows[j].info.instanceType == it;
        assert rows'[j].info == rows[j].info;
        assert it in g[rt];
      } else {
        assert it !in g[rt];
        forall j | 0 <= j < |rows'| ensures !(rows'[j].info.runtime == rt && rows'[j].info.instanceType == it) {
          if j < |rows| { assert rows'[j].info == rows[j].info; }
        }
      }
    }
  }

  lemma ModelsStep(groups: Groups, rows: seq<Record>, x: Record)
    requires RuntimesOf(groups, rows) && InstancesOf(groups, rows) && ModelsOf(groups, rows)
    ensures ModelsOf(AddRow(groups, x.info), rows + [x])
  {
    var rows' := rows + [x];
    var g := AddRow(groups, x.info);
    forall rt, it, m | rt in g && it in g[rt]
      ensures m in g[rt][it] <==> exists j :: 0 <= j < |rows'| && rows'[j].info == DirInfo(rt, it, m)
    {
      if x.info == DirInfo(rt, it, m) {
        assert rows'[|rows|].info == DirInfo(rt, it, m);
      } else if rt in groups && it in groups[rt] && m in groups[rt][it] {
        var j :| 0 <= j < |rows| && rows[j].info == DirInfo(rt, it, m);
        assert rows'[j].info == rows[j].info;
        assert m in g[rt][it];
      } else {
        assert m !in g[rt][it];
        forall j | 0 <= j < |rows'| ensures rows'[j].info != DirInfo(rt, it, m) {
          if j < |rows| { assert rows'[j].info == rows[j].info; }
        }
      }
    }
  }

  /** The grouping of one more row of `data`. */
  lemma GroupsStep(groups: Groups, data: seq<Record>, k: nat)
    requires k < |data| && GroupsOf(groups, data[..k])
    ensures GroupsOf(AddRow(groups, data[k].info), data[..k + 1])
  {
    assert data[..k + 1] == data[..k] + [data[k]];
    RuntimesStep(groups, data[..k], data[k]);
    InstancesStep(groups, data[..k], data[k]);
    ModelsStep(groups, data[..k], data[k]);
  }

  /** One row of the grouping loop: create the missing levels, then add the model. */
  method AddModel(groups: Groups, rt: string, it: string, m: string) returns (g: Groups)
    ensures g == AddRow(groups, DirInfo(rt, it, m))
  {
    g := groups;
    ghost var inner := if rt in groups then groups[rt] else map[];
    if rt !in g {
      g := g[rt := map[]];
    } else {
      assert groups[rt := inner] == groups;
    }
    assert g == groups[rt := inner];
    ghost var ms := if it in inner then inner[it] else {};
    if it !in g[rt] {
      g := g[rt := g[rt][it := {}]];
    } else {
      assert inner[it := ms] == inner;
    }
    assert g == groups[rt := inner[it := ms]];
    g := g[rt := g[rt][it := g[rt][it] + {m}]];
    assert inner[it := ms][it := ms + {m}] == inner[it := ms + {m}];
    assert g == groups[rt := inner[it := ms + {m}]];
  }

  /** The grouping loop of the tree handler: one pass over the rows, adding each row's model. */
  method GroupRows(data: seq<Record>) returns (groups: Groups)
    ensures LabelsOf(groups, data)
  {
    groups := map[];
    var k := 0;
    while k < |data|
      invariant 0 <= k <= |data|
      invariant GroupsOf(groups, data[..k])
    {
      ghost var before := groups;
      groups := AddModel(groups, data[k].info.runtime, data[k].info.instanceType, data[k].info.modelName);
      GroupsStep(before, data, k);
      k := k + 1;
    }
    assert data[..k] == data;
    GroupLabels(groups, data);
  }

  lemma RuntimeLabelsFromGroups(groups: Groups, data: seq<Record>)
    requires RuntimesOf(groups, data)
    ensures forall x :: x in groups <==> x in Labels(data, [])
  {
    forall x ensures x in groups <==> x in Labels(data, []) {
      LabelsMembers(data, [], x);
      assert [] + [x] == [x];
      forall k | 0 <= k < |data| ensures OnPath(data[k], [x]) <==> data[k].info.runtime == x {
        OnRuntime(data[k], x);
      }
    }
  }

  lemma InstanceLabelsFromGroups(groups: Groups, data: seq<Record>, rt: string)
    requires InstancesOf(groups, data) && rt in groups
    ensures forall x :: x in groups[rt] <==> x in Labels(data, [rt])
  {
    forall x ensures x in groups[rt] <==> x in Labels(data, [rt]) {
      LabelsMembers(data, [rt], x);
      assert [rt] + [x] == [rt, x];
      forall k | 0 <= k < |data|
        ensures OnPath(data[k], [rt, x]) <==> data[k].info.runtime == rt && data[k].info.instanceType == x
      {
        OnInstance(data[k], rt, x);
      }
    }
  }

  lemma ModelLabelsFromGroups(groups: Groups, data: seq<Record>, rt: string, it: string)
    requires ModelsOf(groups, data) && rt in groups && it in groups[rt]
    ensures forall x :: x in groups[rt][it] <==> x in Labels(data, [rt, it])
  {
    forall x ensures x in groups[rt][it] <==> x in Labels(data, [rt, it]) {
      LabelsMembers(data, [rt, it], x);
      assert [rt, it] + [x] == [rt, it, x];
      forall k | 0 <= k < |data| ensures OnPath(data[k], [rt, it, x]) <==> data[k].info == DirInfo(rt, it, x) {
        OnModel(data[k], rt, it, x);
      }
    }
  }

  /** `tree[rt]` lists the instance types of runtime `rt`, and for each the models under it. */
  ghost predicate InnerOf(data: seq<Record>, rt: string, inner: map<string, set<string>>)
  {
    && (forall it :: it in inner <==> it in Labels(data, [rt]))
    && (forall it, x :: it in inner ==> (x in inner[it] <==> x in Labels(data, [rt, it])))
  }

  /** The sorted keys of `tree` are the tree's runtime labels, and each `tree[rt]` gives its levels below. */
  ghost predicate LabelsOf(groups: Groups, data: seq<Record>)
  {
    && (forall rt :: rt in groups <==> rt in Labels(data, []))
    && (forall rt :: rt in groups ==> InnerOf(data, rt, groups[rt]))
  }

  lemma GroupLabels(groups: Groups, data: seq<Record>)
    requires GroupsOf(groups, data)
    ensures LabelsOf(groups, data)
  {
    RuntimeLabelsFromGroups(groups, data);
    forall rt | rt in groups ensures InnerOf(data, rt, groups[rt]) {
      InstanceLabelsFromGroups(groups, data, rt);
      forall it | it in groups[rt] ensures forall x :: x in groups[rt][it] <==> x in Labels(data, [rt, it]) {
        ModelLabelsFromGroups(groups, data, rt, it);
      }
    }
  }

  /** The model nodes of one instance node, built in the order of the sorted models. */
  method BuildModelNodes(data: seq<Record>, rt: string, it: string, names: set<string>)
    returns (models: seq<ModelNode>)
    requires forall x :: x in names <==> x in Labels(data, [rt, it])
    ensures models == InstanceNodeOf(data, rt, it).children
  {
    var ms := SortedList(names);
    SortedStringsUnique(ms, Labels(data, [rt, it]));
    models := [];
    ghost var nodeOf := (m: string) => ModelNodeOf(data, rt, it, m);
    var q := 0;
    while q < |ms|
      invariant 0 <= q <= |ms|
      invariant models == MapSeq(ms[..q], nodeOf)
    {
      var m := ms[q];
      var node := ModelNode(DirName(rt, it, m), m, Count(data, [rt, it, m]), rt, it, m);
      MapSeqPrefixStep(ms, nodeOf, q);
      models := models + [node];
      q := q + 1;
    }
    assert ms[..q] == ms;
  }

  /** The instance nodes of one runtime node, built in the order of the sorted instance types. */
  method BuildInstanceNodes(data: seq<Record>, rt: string, inner: map<string, set<string>>)
    returns (children: seq<InstanceNode>)
    requires InnerOf(data, rt, inner)
    ensures children == RuntimeNodeOf(data, rt).children
  {
    var its := SortedList(inner.Keys);
    SortedStringsUnique(its, Labels(data, [rt]));
    children := [];
    ghost var nodeOf := (it: string) => InstanceNodeOf(data, rt, it);
    var p := 0;
    while p < |its|
      invariant 0 <= p <= |its|
      invariant children == MapSeq(its[..p], nodeOf)
    {
      var it := its[p];
      var models := BuildModelNodes(data, rt, it, inner[it]);
      var node := InstanceNode(rt + "--" + it, it, Count(data, [rt, it]), models);
      InstanceNodeParts(data, rt, it, models);
      MapSeqPrefixStep(its, nodeOf, p);
      children := children + [node];
      p := p + 1;
    }
    assert its[..p] == its;
  }

  /** The tree of the tree handler: group the rows, then emit the sorted levels with their counts. */
  method BuildTree(data: seq<Record>) returns (result: seq<RuntimeNode>)
    ensures result == TreeOf(data)
  {
    var groups := GroupRows(data);
    var rts := SortedList(groups.Keys);
    SortedStringsUnique(rts, Labels(data, []));
    result := BuildRuntimeNodes(data, groups, rts);
  }

  /** The runtime nodes, one per sorted runtime of `tree`. */
  method BuildRuntimeNodes(data: seq<Record>, groups: Groups, rts: seq<string>) returns (result: seq<RuntimeNode>)
    requires LabelsOf(groups, data)
    requires forall x :: x in rts ==> x in groups
    ensures result == MapSeq(rts, (rt: string) => RuntimeNodeOf(data, rt))
  {
    result := [];
    ghost var nodeOf := (rt: string) => RuntimeNodeOf(data, rt);
    var i := 0;
    while i < |rts|
      invariant 0 <= i <= |rts|
      invariant result == MapSeq(rts[..i], nodeOf)
    {
      var rt := rts[i];
      var children := BuildInstanceNodes(data, rt, groups[rt]);
      var node := RuntimeNode(rt, rt, Count(data, [rt]), children);
      RuntimeNodeParts(data, rt, children);
      MapSeqPrefixStep(rts, nodeOf, i);
      result := result + [node];
      i := i + 1;
    }
    assert rts[..i] == rts;
  }

  /** The filter loop of `get_performance_data`: narrow the rows by each usable filter in turn. */
  method ApplyFilters(rows: seq<Record>, filters: seq<(string, Json)>) returns (filtered: seq<Record>)
    ensures filtered == Filter(rows, Matcher(filters))
  {
    filtered := rows;
    NoFilters(rows);
    assert filters[..0] == [];
    var k := 0;
    while k < |filters|
      invariant 0 <= k <= |filters|
      invariant filtered == Filter(rows, Matcher(filters[..k]))
    {
      var key, value := filters[k].0, filters[k].1;
      ghost var next := Filter(rows, Matcher(filters[..k + 1]));
      FilterStep(rows, filters, k);
      assert Filter(filtered, Keeper(key, value)) == next;
      if IsColumn(key) && value != JNull {
        filtered := Filter(filtered, Keeper(key, value));
      } else {
        SkippedFilter(filtered, key, value);
        assert filtered == next;
      }
      k := k + 1;
    }
    assert filters[..k] == filters;
  }

  class ResultsDataProvider {
    const resultsDir: string
    /** The loaded records; the DataFrame is built from exactly these. */
    var data: seq<Record>

    /** `__init__`, whose directory defaults to `archive_results`, loads the results straight away. */
    constructor(resultsDir: Option<string>, listing: seq<DirEntry>)
      ensures this.resultsDir == if resultsDir.Some? then resultsDir.value else "archive_results"
      ensures data == LoadListing(this.resultsDir, listing)
    {
      this.resultsDir := if resultsDir.Some? then resultsDir.value else "archive_results";
      new;
      LoadAllResults(listing);
    }

    /** `load_all_results`: clear the data, then append the records of each entry of the listing in turn. */
    method LoadAllResults(listing: seq<DirEntry>)
      modifies this
      ensures data == LoadListing(resultsDir, listing)
    {
      data := [];
      var k := 0;
      while k < |listing|
        invariant 0 <= k <= |listing|
        invariant data == LoadListing(resultsDir, listing[..k])
      {
        LoadEntry(listing[k]);
        LoadListingPrefixStep(resultsDir, listing, k);
        k := k + 1;
      }
      assert listing[..k] == listing;
    }

    /** One entry of the listing: the records of its files when it is a directory whose name parses. */
    method LoadEntry(e: DirEntry)
      modifies this
      ensures data == old(data) + DirRecords(resultsDir, e)
    {
      if e.isDir {
        var info := ParseDirectoryName(e.name);
        if info.Some? {
          AppendLoaded(e.files, FileLoader(resultsDir, e.name, info.value));
        }
      }
    }

    /** The inner loop of `load_all_results`: append `load(f)` for each file `f` it gives a record for. */
    method AppendLoaded(files: seq<FileEntry>, load: FileEntry -> Option<Record>)
      modifies this
      ensures data == old(data) + FilterMap(files, load)
    {
      var j := 0;
      while j < |files|
        invariant 0 <= j <= |files|
        invariant data == old(data) + FilterMap(files[..j], load)
      {
        var rec := load(files[j]);
        if rec.Some? {
          data := data + [rec.value];
        }
        FilterMapPrefixStep(files, load, j);
        j := j + 1;
      }
      assert files[..j] == files;
    }

    /**
     * `get_performance_data`: `[]` on an empty dataset; otherwise the records that
     * pass every filter, ascending by processes.
     */
    method GetPerformanceData(filters: seq<(string, Json)>) returns (result: seq<Record>)
      ensures data == [] ==> result == []
      ensures SortedByProcesses(result)
      ensures multiset(result) == multiset(Filter(data, Matcher(filters)))
      ensures forall r :: r in result ==> r in data && MatchesAll(r, filters)
    {
      if data == [] {
        return [];
      }
      var filtered := ApplyFilters(data, filters);
      result := SortByProcesses(filtered);
      forall r | r in result ensures r in data && MatchesAll(r, filters) {
        assert r in multiset(result);
        assert Matcher(filters)(r);
      }
    }

    /** The tree handler reloads from disk first, then builds the tree of the fresh data. */
    method GetTreeStructure(listing: seq<DirEntry>) returns (tree: seq<RuntimeNode>)
      modifies this
      ensures data == LoadListing(resultsDir, listing)
      ensures tree == TreeOf(data)
    {
      LoadAllResults(listing);
      tree := BuildTree(data);
    }
  }
}
