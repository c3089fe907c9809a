/**
 * The runtime → instance type → model tree of `get_tree_structure`: children
 * sorted by label at every level, every node counting the records that match
 * its path.
 */
module ResultTree {
  import opened Ordering
  import opened ResultNames
  import opened ResultRecords

  datatype ModelNode = ModelNode(
    id: string, caption: string, count: nat, runtime: string, instanceType: string, modelName: string)

  datatype InstanceNode = InstanceNode(id: string, caption: string, count: nat, children: seq<ModelNode>)

  datatype RuntimeNode = RuntimeNode(id: string, caption: string, count: nat, children: seq<InstanceNode>)

  /** The record's runtime, instance type and model, in that order. */
  function Identity(r: Record): seq<string>
  {
    [r.info.runtime, r.info.instanceType, r.info.modelName]
  }

  /** The first `|path|` identity fields of `r` are `path`. */
  predicate OnPath(r: Record, path: seq<string>)
  {
    |path| <= 3 && Identity(r)[..|path|] == path
  }

  /** Extending a path by one label asks the next identity field to be that label. */
  lemma OnPathExtend(r: Record, path: seq<string>, l: string)
    requires |path| < 3
    ensures OnPath(r, path + [l]) <==> OnPath(r, path) && Identity(r)[|path|] == l
  {
    var id := Identity(r);
    if OnPath(r, path + [l]) {
      assert id[..|path|] == id[..|path| + 1][..|path|];
      assert id[|path|] == id[..|path| + 1][|path|];
    }
    if OnPath(r, path) && id[|path|] == l {
      assert id[..|path| + 1] == id[..|path|] + [id[|path|]];
    }
  }

  /** The number of records on `path`: `len(df[(df['runtime'] == ...) & ...])`. */
  function Count(data: seq<Record>, path: seq<string>): nat
  {
    if data == [] then 0
    else Count(data[..|data| - 1], path) + (if OnPath(data[|data| - 1], path) then 1 else 0)
  }

  /** The next identity field of every record on `path`, in order. */
  function Keys(data: seq<Record>, path: seq<string>): seq<string>
    requires |path| < 3
  {
    if data == [] then []
    else
      var init := Keys(data[..|data| - 1], path);
      if OnPath(data[|data| - 1], path) then init + [Identity(data[|data| - 1])[|path|]] else init
  }

  lemma {:induction false} KeysMembers(data: seq<Record>, path: seq<string>, l: string)
    requires |path| < 3
    ensures l in Keys(data, path) <==> exists k :: 0 <= k < |data| && OnPath(data[k], path + [l])
  {
    if data != [] {
      var init := data[..|data| - 1];
      KeysMembers(init, path, l);
      forall k | 0 <= k < |init| ensures init[k] == data[k] { }
      OnPathExtend(data[|data| - 1], path, l);
      if exists k :: 0 <= k < |data| && OnPath(data[k], path + [l]) {
        var k :| 0 <= k < |data| && OnPath(data[k], path + [l]);
        if k < |init| {
          assert OnPath(init[k], path + [l]);
        }
      }
    }
  }

  /** The sorted distinct labels of the children of the node at `path`. */
  function Labels(data: seq<Record>, path: seq<string>): (ls: seq<string>)
    requires |path| < 3
    ensures SortedStrings(ls)
  {
    SortStrings(Keys(data, path))
  }

  /** A label is listed exactly when some record lies on the extended path. */
  lemma LabelsMembers(data: seq<Record>, path: seq<string>, l: string)
    requires |path| < 3
    ensures l in Labels(data, path) <==> exists k :: 0 <= k < |data| && OnPath(data[k], path + [l])
  {
    KeysMembers(data, path, l);
  }

  function ModelNodeOf(data: seq<Record>, rt: string, it: string, m: string): ModelNode
  {
    ModelNode(DirName(rt, it, m), m, Count(data, [rt, it, m]), rt, it, m)
  }

  function InstanceNodeOf(data: seq<Record>, rt: string, it: string): InstanceNode
  {
    InstanceNode(rt + "--" + it, it, Count(data, [rt, it]),
                 MapSeq(Labels(data, [rt, it]), (m: string) => ModelNodeOf(data, rt, it, m)))
  }

  function RuntimeNodeOf(data: seq<Record>, rt: string): RuntimeNode
  {
    RuntimeNode(rt, rt, Count(data, [rt]),
                MapSeq(Labels(data, [rt]), (it: string) => InstanceNodeOf(data, rt, it)))
  }

  /** A runtime node is its label, its count and the children given to it. */
  lemma RuntimeNodeParts(data: seq<Record>, rt: string, children: seq<InstanceNode>)
    requires children == RuntimeNodeOf(data, rt).children
    ensures RuntimeNode(rt, rt, Count(data, [rt]), children) == RuntimeNodeOf(data, rt)
  {
  }

  /** An instance node is its id, label, count and the children given to it. */
  lemma InstanceNodeParts(data: seq<Record>, rt: string, it: string, children: seq<ModelNode>)
    requires children == InstanceNodeOf(data, rt, it).children
    ensures InstanceNode(rt + "--" + it, it, Count(data, [rt, it]), children) == InstanceNodeOf(data, rt, it)
  {
  }

  /** The tree `get_tree_structure` returns for the dataset `data`. */
  function TreeOf(data: seq<Record>): seq<RuntimeNode>
  {
    MapSeq(Labels(data, []), (rt: string) => RuntimeNodeOf(data, rt))
  }

  /** No data, no tree. */
  lemma EmptyTree()
    ensures TreeOf([]) == []
  {
    assert Keys([], []) == [];
  }

  lemma OnRuntime(r: Record, rt: string)
    ensures OnPath(r, [rt]) <==> r.info.runtime == rt
  {
    OnPathExtend(r, [], rt);
    assert [] + [rt] == [rt];
    assert Identity(r)[..0] == [];
  }

  lemma OnInstance(r: Record, rt: string, it: string)
    ensures OnPath(r, [rt, it]) <==> r.info.runtime == rt && r.info.instanceType == it
  {
    OnPathExtend(r, [rt], it);
    OnRuntime(r, rt);
    assert [rt] + [it] == [rt, it];
  }

  lemma OnModel(r: Record, rt: string, it: string, m: string)
    ensures OnPath(r, [rt, it, m]) <==> r.info == DirInfo(rt, it, m)
  {
    OnPathExtend(r, [rt, it], m);
    OnInstance(r, rt, it);
    assert [rt, it] + [m] == [rt, it, m];
  }

  /** The labels of nodes built over `ls` are `ls`, so they ascend and hold exactly its elements. */
  lemma NodeCaptions<N>(ls: seq<string>, f: string -> N, caption: N -> string, l: string)
    requires SortedStrings(ls)
    requires forall x :: caption(f(x)) == x
    ensures var ns := MapSeq(ls, f);
            && (forall i, j :: 0 <= i < j < |ns| ==> LexLess(caption(ns[i]), caption(ns[j])))
            && ((exists i :: 0 <= i < |ns| && caption(ns[i]) == l) <==> l in ls)
  {
    var ns := MapSeq(ls, f);
    assert forall i :: 0 <= i < |ns| ==> caption(ns[i]) == ls[i];
    if l in ls {
      var i :| 0 <= i < |ls| && ls[i] == l;
      assert caption(ns[i]) == l;
    }
  }

  /** One runtime node per distinct runtime, ascending by label. */
  lemma TreeLabels(data: seq<Record>, rt: string)
    ensures var t := TreeOf(data);
            && (forall i, j :: 0 <= i < j < |t| ==> LexLess(t[i].caption, t[j].caption))
            && ((exists i :: 0 <= i < |t| && t[i].caption == rt) <==>
                exists k :: 0 <= k < |data| && data[k].info.runtime == rt)
  {
    NodeCaptions(Labels(data, []), (x: string) => RuntimeNodeOf(data, x), (n: RuntimeNode) => n.caption, rt);
    LabelsMembers(data, [], rt);
    assert [] + [rt] == [rt];
    forall k | 0 <= k < |data| ensures OnPath(data[k], [rt]) <==> data[k].info.runtime == rt {
      OnRuntime(data[k], rt);
    }
  }

  /** The children of a runtime node: the instance types run on it, ascending. */
  lemma InstanceLabels(data: seq<Record>, rt: string, it: string)
    ensures var cs := RuntimeNodeOf(data, rt).children;
            && (forall i, j :: 0 <= i < j < |cs| ==> LexLess(cs[i].caption, cs[j].caption))
            && ((exists i :: 0 <= i < |cs| && cs[i].caption == it) <==>
                exists k :: 0 <= k < |data| && data[k].info.runtime == rt && data[k].info.instanceType == it)
  {
    NodeCaptions(Labels(data, [rt]), (x: string) => InstanceNodeOf(data, rt, x), (n: InstanceNode) => n.caption, it);
    LabelsMembers(data, [rt], it);
    assert [rt] + [it] == [rt, it];
    forall k | 0 <= k < |data|
      ensures OnPath(data[k], [rt, it]) <==> data[k].info.runtime == rt && data[k].info.instanceType == it
    {
      OnInstance(data[k], rt, it);
    }
  }

  /** The children of an instance node: the models run on that pair, ascending. */
  lemma ModelLabels(data: seq<Record>, rt: string, it: string, m: string)
    ensures var cs := InstanceNodeOf(data, rt, it).children;
            && (forall i, j :: 0 <= i < j < |cs| ==> LexLess(cs[i].caption, cs[j].caption))
            && ((exists i :: 0 <= i < |cs| && cs[i].caption == m) <==>
                exists k :: 0 <= k < |data| && data[k].info == DirInfo(rt, it, m))
  {
    NodeCaptions(Labels(data, [rt, it]), (x: string) => ModelNodeOf(data, rt, it, x), (n: ModelNode) => n.caption, m);
    LabelsMembers(data, [rt, it], m);
    assert [rt, it] + [m] == [rt, it, m];
    forall k | 0 <= k < |data| ensures OnPath(data[k], [rt, it, m]) <==> data[k].info == DirInfo(rt, it, m) {
      OnModel(data[k], rt, it, m);
    }
  }

  /** The counts of the records on each path `path + [l]`, summed over `labels`. */
  function SumCounts(data: seq<Record>, path: seq<string>, labels: seq<string>): nat
  {
    if labels == [] then 0
    else SumCounts(data, path, labels[..|labels| - 1]) + Count(data, path + [labels[|labels| - 1]])
  }

  lemma {:induction false} SumCountsEmpty(path: seq<string>, labels: seq<string>)
    ensures SumCounts([], path, labels) == 0
  {
    if labels != [] { SumCountsEmpty(path, labels[..|labels| - 1]); }
  }

  /** How many of the extended paths one more record lies on. */
  function Hits(r: Record, path: seq<string>, labels: seq<string>): nat
  {
    if labels == [] then 0
    else Hits(r, path, labels[..|labels| - 1]) + (if OnPath(r, path + [labels[|labels| - 1]]) then 1 else 0)
  }

  lemma {:induction false} SumCountsSnoc(data: seq<Record>, r: Record, path: seq<string>, labels: seq<string>)
    ensures SumCounts(data + [r], path, labels) == SumCounts(data, path, labels) + Hits(r, path, labels)
  {
    if labels != [] {
      SumCountsSnoc(data, r, path, labels[..|labels| - 1]);
      assert (data + [r])[..|data|] == data;
    }
  }

  /** With distinct labels, a record lies on one extended path if its next field is listed, else on none. */
  lemma {:induction false} HitsOnce(r: Record, path: seq<string>, labels: seq<string>)
    requires |path| < 3 && NoDuplicates(labels)
    ensures Hits(r, path, labels) == if OnPath(r, path) && Identity(r)[|path|] in labels then 1 else 0
  {
    if labels != [] {
      var init := labels[..|labels| - 1];
      var l := labels[|labels| - 1];
      assert NoDuplicates(init) by {
        forall i, j | 0 <= i < j < |init| ensures init[i] != init[j] {
          assert init[i] == labels[i] && init[j] == labels[j];
        }
      }
      HitsOnce(r, path, init);
      OnPathExtend(r, path, l);
      assert l !in init by {
        forall i | 0 <= i < |init| ensures init[i] != l {
          assert init[i] == labels[i];
        }
      }
      assert labels == init + [l];
    }
  }

  /**
   * Child counts add up to the parent's: the labels are distinct and cover the
   * next field of every record on the parent's path.
   */
  lemma {:induction false} ChildCountsSum(data: seq<Record>, path: seq<string>, labels: seq<string>)
    requires |path| < 3 && NoDuplicates(labels)
    requires forall k :: 0 <= k < |data| && OnPath(data[k], path) ==> Identity(data[k])[|path|] in labels
    ensures SumCounts(data, path, labels) == Count(data, path)
  {
    if data == [] {
      SumCountsEmpty(path, labels);
    } else {
      var init := data[..|data| - 1];
      var r := data[|data| - 1];
      forall k | 0 <= k < |init| && OnPath(init[k], path) ensures Identity(init[k])[|path|] in labels {
        assert init[k] == data[k];
      }
      ChildCountsSum(init, path, labels);
      assert data == init + [r];
      SumCountsSnoc(init, r, path, labels);
      HitsOnce(r, path, labels);
    }
  }

  function InstanceCountSum(ns: seq<InstanceNode>): nat
  {
    if ns == [] then 0 else InstanceCountSum(ns[..|ns| - 1]) + ns[|ns| - 1].count
  }

  function ModelCountSum(ns: seq<ModelNode>): nat
  {
    if ns == [] then 0 else ModelCountSum(ns[..|ns| - 1]) + ns[|ns| - 1].count
  }

  lemma {:induction false} InstanceCountSumIsSumCounts(data: seq<Record>, rt: string, labels: seq<string>)
    ensures InstanceCountSum(MapSeq(labels, (it: string) => InstanceNodeOf(data, rt, it)))
         == SumCounts(data, [rt], labels)
  {
    if labels != [] {
      var init := labels[..|labels| - 1];
      var f := (it: string) => InstanceNodeOf(data, rt, it);
      InstanceCountSumIsSumCounts(data, rt, init);
      var ns := MapSeq(labels, f);
      assert ns[..|ns| - 1] == MapSeq(init, f);
      assert [rt] + [labels[|labels| - 1]] == [rt, labels[|labels| - 1]];
    }
  }

  lemma {:induction false} ModelCountSumIsSumCounts(data: seq<Record>, rt: string, it: string, labels: seq<string>)
    ensures ModelCountSum(MapSeq(labels, (m: string) => ModelNodeOf(data, rt, it, m)))
         == SumCounts(data, [rt, it], labels)
  {
    if labels != [] {
      var init := labels[..|labels| - 1];
      var f := (m: string) => ModelNodeOf(data, rt, it, m);
      ModelCountSumIsSumCounts(data, rt, it, init);
      var ns := MapSeq(labels, f);
      assert ns[..|ns| - 1] == MapSeq(init, f);
      assert [rt, it] + [labels[|labels| - 1]] == [rt, it, labels[|labels| - 1]];
    }
  }

  /** A runtime node counts the sum of its instance nodes' counts. */
  lemma RuntimeCountIsChildSum(data: seq<Record>, rt: string)
    ensures InstanceCountSum(RuntimeNodeOf(data, rt).children) == RuntimeNodeOf(data, rt).count
  {
    var ls := Labels(data, [rt]);
    SortedStringsNoDuplicates(ls);
    forall k | 0 <= k < |data| && OnPath(data[k], [rt]) ensures Identity(data[k])[1] in ls {
      var l := Identity(data[k])[1];
      OnPathExtend(data[k], [rt], l);
      LabelsMembers(data, [rt], l);
    }
    ChildCountsSum(data, [rt], ls);
    InstanceCountSumIsSumCounts(data, rt, ls);
  }

  /** An instance node counts the sum of its model nodes' counts. */
  lemma InstanceCountIsChildSum(data: seq<Record>, rt: string, it: string)
    ensures ModelCountSum(InstanceNodeOf(data, rt, it).children) == InstanceNodeOf(data, rt, it).count
  {
    var ls := Labels(data, [rt, it]);
    SortedStringsNoDuplicates(ls);
    forall k | 0 <= k < |data| && OnPath(data[k], [rt, it]) ensures Identity(data[k])[2] in ls {
      var l := Identity(data[k])[2];
      OnPathExtend(data[k], [rt, it], l);
      LabelsMembers(data, [rt, it], l);
    }
    ChildCountsSum(data, [rt, it], ls);
    ModelCountSumIsSumCounts(data, rt, it, ls);
  }

  /** The runtime counts add up to the whole dataset. */
  lemma RuntimeCountsCoverData(data: seq<Record>)
    ensures SumCounts(data, [], Labels(data, [])) == |data|
  {
    var ls := Labels(data, []);
    SortedStringsNoDuplicates(ls);
    forall k | 0 <= k < |data| ensures Identity(data[k])[0] in ls {
      var l := Identity(data[k])[0];
      OnPathExtend(data[k], [], l);
      LabelsMembers(data, [], l);
    }
    ChildCountsSum(data, [], ls);
    CountRoot(data);
  }

  lemma {:induction false} CountRoot(data: seq<Record>)
    ensures Count(data, []) == |data|
  {
    if data != [] { CountRoot(data[..|data| - 1]); }
  }
}
