/** The policy gate in front of the importer (scripts/sync_rubric_to_db.py): it classifies
    the differences between two directories of rubric documents. */
module RubricGate {
  import opened Common
  import opened Ordering
  import opened RubricStore

  /** What the gate compares of a node. */
  datatype Projection = Projection(retired: bool, levels: map<nat, string>)

  function LevelMap(levels: seq<LevelDoc>): map<nat, string>
  {
    if levels == [] then map[] else LevelMap(Front(levels))[Last(levels).rank := Last(levels).descriptor]
  }

  function Projected(doc: Doc, node: Node): Projection
  {
    Projection(doc.retired || node.retired, LevelMap(node.levels))
  }

  function IndexNodesOf(index: map<string, Projection>, doc: Doc, nodes: seq<Node>): map<string, Projection>
  {
    if nodes == [] then index
    else IndexNodesOf(index, doc, Front(nodes))[Last(nodes).id := Projected(doc, Last(nodes))]
  }

  function Index(files: seq<File>): map<string, Projection>
  {
    if files == [] then map[] else IndexNodesOf(Index(Front(files)), Last(files).doc, Last(files).doc.nodes)
  }

  datatype Severity = Forbidden | Destructive

  datatype Kind = NodeRemoved | NodeRetired | NodeUnretired | LevelRemoved | LevelRetyped

  datatype Finding = Finding(severity: Severity, kind: Kind, id: string, rank: Option<nat>)

  /** The differences to report, one by one. */
  predicate IsFinding(was: map<string, Projection>, now: map<string, Projection>, f: Finding)
  {
    && f.id in was
    && f.severity == (if f.kind.NodeRemoved? then Forbidden else Destructive)
    && (f.rank.Some? <==> f.kind.LevelRemoved? || f.kind.LevelRetyped?)
    && match f.kind
       case NodeRemoved => f.id !in now
       case NodeRetired => f.id in now && !was[f.id].retired && now[f.id].retired
       case NodeUnretired => f.id in now && was[f.id].retired && !now[f.id].retired
       case LevelRemoved =>
         && f.id in now && !was[f.id].retired && !now[f.id].retired
         && f.rank.value in was[f.id].levels && f.rank.value !in now[f.id].levels
       case LevelRetyped =>
         && f.id in now && !was[f.id].retired && !now[f.id].retired
         && f.rank.value in was[f.id].levels && f.rank.value in now[f.id].levels
         && was[f.id].levels[f.rank.value] != now[f.id].levels[f.rank.value]
  }

  // ---------- the gate as the program runs it ----------

  method IndexNodes(files: seq<File>) returns (index: map<string, Projection>)
    ensures index == Index(files)
  {
    index := map[];
    for f := 0 to |files|
      invariant index == Index(files[..f])
    {
      var doc := files[f].doc;
      assert Front(files[..f + 1]) == files[..f];
      ghost var before := index;
      for k := 0 to |doc.nodes|
        invariant index == IndexNodesOf(before, doc, doc.nodes[..k])
      {
        assert Front(doc.nodes[..k + 1]) == doc.nodes[..k];
        index := index[doc.nodes[k].id := Projected(doc, doc.nodes[k])];
      }
      assert doc.nodes[..|doc.nodes|] == doc.nodes;
    }
    assert files[..|files|] == files;
  }

  /** sorted(...) of a set. */
  method InSortedOrder<T(==,!new)>(items: set<T>, before: (T, T) -> bool) returns (s: seq<T>)
    requires TotalOrder(before)
    ensures InOrder(s, before)
    ensures forall x :: x in s <==> x in items
    ensures forall i, j :: 0 <= i < j < |s| ==> s[i] != s[j]
  {
    s := [];
    var rest := items;
    while rest != {}
      invariant rest <= items
      invariant InOrder(s, before)
      invariant multiset(s) == multiset(items - rest)
    {
      var x :| x in rest;
      InsertedKeeps(s, x, before);
      s := Inserted(s, x, before);
      assert items - (rest - {x}) == items - rest + {x};
      rest := rest - {x};
    }
    assert items - rest == items;
    OncePerItem(s, items);
  }

  lemma OncePerItem<T>(s: seq<T>, items: set<T>)
    requires multiset(s) == multiset(items)
    ensures forall x :: x in s <==> x in items
    ensures forall i, j :: 0 <= i < j < |s| ==> s[i] != s[j]
  {
    forall x
      ensures x in s <==> x in items
    {
      assert x in s <==> x in multiset(s);
    }
    forall i, j | 0 <= i < j < |s|
      ensures s[i] != s[j]
    {
      if s[i] == s[j] {
        RepeatedTwice(s, i, j);
      }
    }
  }

  lemma RepeatedTwice<T>(s: seq<T>, i: nat, j: nat)
    requires i < j < |s| && s[i] == s[j]
    ensures multiset(s)[s[i]] >= 2
  {
    assert s == s[..j] + s[j..];
    assert s[..j][i] == s[i] && s[j..][0] == s[i];
    assert s[i] in multiset(s[..j]) && s[i] in multiset(s[j..]);
  }

  function AtMost(): (nat, nat) -> bool { (a: nat, b: nat) => a <= b }

  lemma NameOrderIsTotal()
    ensures TotalOrder(Before)
  {
    forall a: string, b: string
      ensures Before(a, b) || Before(b, a)
    {
      BeforeIsTotal(a, b);
    }
    forall a: string, b: string, c: string | Before(a, b) && Before(b, c)
      ensures Before(a, c)
    {
      BeforeIsTransitive(a, b, c);
    }
  }

  /** In order of ranks; more than one only if they are about ranks. */
  ghost predicate RanksRise(findings: seq<Finding>)
  {
    forall i, j :: 0 <= i < j < |findings| ==>
      findings[i].rank.Some? && findings[j].rank.Some? && findings[i].rank.value < findings[j].rank.value
  }

  /** The differences of one level. */
  function AtRank(id: string, before: Projection, after: Projection, rank: nat): seq<Finding>
    requires rank in before.levels
  {
    if rank !in after.levels then [Finding(Destructive, LevelRemoved, id, Some(rank))]
    else if after.levels[rank] != before.levels[rank] then [Finding(Destructive, LevelRetyped, id, Some(rank))]
    else []
  }

  lemma AtRankIsFinding(was: map<string, Projection>, now: map<string, Projection>, id: string, rank: nat, f: Finding)
    requires id in was && id in now && !was[id].retired && !now[id].retired && rank in was[id].levels
    ensures f in AtRank(id, was[id], now[id], rank) <==> f.id == id && IsFinding(was, now, f) && f.rank == Some(rank)
  {
  }

  lemma RisesWith(findings: seq<Finding>, more: seq<Finding>, rank: nat)
    requires RanksRise(findings) && |more| <= 1 && forall f :: f in more ==> f.rank == Some(rank)
    requires forall f :: f in findings ==> f.rank.Some? && f.rank.value < rank
    ensures RanksRise(findings + more)
  {
    assert forall i :: 0 <= i < |findings| ==> findings[i] in findings;
    assert forall i :: 0 <= i < |more| ==> more[i] in more;
  }

  /** The findings about the levels of a node active on both sides. */
  method CompareLevels(id: string, was: map<string, Projection>, now: map<string, Projection>)
    returns (findings: seq<Finding>)
    requires id in was && id in now && !was[id].retired && !now[id].retired
    ensures forall f :: f in findings <==> f.id == id && IsFinding(was, now, f)
    ensures RanksRise(findings)
  {
    hide RanksRise;
    var before, after := was[id], now[id];
    findings := [];
    assert RanksRise([]) by {
      NoRanks();
    }
    var ranks := InSortedOrder(before.levels.Keys, AtMost());
    for k := 0 to |ranks|
      invariant forall f :: f in findings <==> f.id == id && IsFinding(was, now, f) && f.rank.value in ranks[..k]
      invariant RanksRise(findings)
    {
      var rank := ranks[k];
      assert ranks[..k + 1] == ranks[..k] + [rank];
      var more := AtRank(id, before, after, rank);
      forall f
        ensures f in more <==> f.id == id && IsFinding(was, now, f) && f.rank == Some(rank)
      {
        AtRankIsFinding(was, now, id, rank, f);
      }
      Rising(ranks, k);
      RisesWith(findings, more, rank);
      findings := findings + more;
    }
  }

  lemma NoRanks()
    ensures RanksRise([])
  {
  }

  lemma Rising(ranks: seq<nat>, k: nat)
    requires InOrder(ranks, AtMost()) && k < |ranks| && forall i, j :: 0 <= i < j < |ranks| ==> ranks[i] != ranks[j]
    ensures forall r :: r in ranks[..k] ==> r < ranks[k]
  {
    assert forall i :: 0 <= i < k ==> AtMost()(ranks[i], ranks[k]) && ranks[i] != ranks[k];
  }

  /** The findings about one id. */
  method Compare(id: string, was: map<string, Projection>, now: map<string, Projection>)
    returns (findings: seq<Finding>)
    requires id in was
    ensures forall f :: f in findings <==> f.id == id && IsFinding(was, now, f)
    ensures RanksRise(findings)
  {
    if id !in now {
      return [Finding(Forbidden, NodeRemoved, id, None)];
    }
    var before, after := was[id], now[id];
    if !before.retired && after.retired {
      return [Finding(Destructive, NodeRetired, id, None)];
    }
    if before.retired && !after.retired {
      return [Finding(Destructive, NodeUnretired, id, None)];
    }
    if before.retired || after.retired {
      return [];
    }
    findings := CompareLevels(id, was, now);
  }

  /** No finding twice: ids in order, and the ranks of each in order. */
  ghost predicate Listed(findings: seq<Finding>)
  {
    forall i, j :: 0 <= i < j < |findings| ==>
      && findings[i] != findings[j] && Before(findings[i].id, findings[j].id)
      && (findings[i].id == findings[j].id ==>
            findings[i].rank.Some? && findings[j].rank.Some? && findings[i].rank.value < findings[j].rank.value)
  }

  lemma JoinsInOrder(ids: seq<string>, k: nat, findings: seq<Finding>, more: seq<Finding>)
    requires k < |ids| && InOrder(ids, Before) && forall i, j :: 0 <= i < j < |ids| ==> ids[i] != ids[j]
    requires Listed(findings) && forall f :: f in findings ==> f.id in ids[..k]
    requires forall f :: f in more ==> f.id == ids[k]
    requires RanksRise(more)
    ensures Listed(findings + more)
  {
    BeforeIsTotal(ids[k], ids[k]);
    forall i | 0 <= i < |findings|
      ensures Before(findings[i].id, ids[k]) && findings[i].id != ids[k]
    {
      assert findings[i] in findings;
      var p :| 0 <= p < k && ids[p] == findings[i].id;
    }
    forall j | 0 <= j < |more|
      ensures more[j].id == ids[k]
    {
      assert more[j] in more;
    }
  }

  /** Every difference once, in order of ids, and nothing else. */
  method DetectDestructiveChanges(baseline: seq<File>, current: seq<File>) returns (findings: seq<Finding>)
    ensures forall f :: f in findings <==> IsFinding(Index(baseline), Index(current), f)
    ensures Listed(findings)
  {
    var was := IndexNodes(baseline);
    var now := IndexNodes(current);
    NameOrderIsTotal();
    var ids := InSortedOrder(was.Keys, Before);
    findings := [];
    for k := 0 to |ids|
      invariant forall f :: f in findings <==> f.id in ids[..k] && IsFinding(was, now, f)
      invariant Listed(findings)
    {
      var more := Compare(ids[k], was, now);
      assert ids[..k + 1] == ids[..k] + [ids[k]];
      JoinsInOrder(ids, k, findings, more);
      findings := findings + more;
    }
  }

  /** The exit code of `check`: a missing directory or a forbidden change, clean, authorised
      by a citation, or refused. */
  function ExitCode(findings: seq<Finding>, cited: bool): nat
  {
    if exists k :: 0 <= k < |findings| && findings[k].severity.Forbidden? then 2
    else if findings == [] || cited then 0
    else 1
  }

  /** `check`; None stands for a directory that does not exist. */
  method Check(baseline: Option<seq<File>>, current: Option<seq<File>>, cited: bool) returns (code: nat)
    ensures baseline.None? || current.None? ==> code == 2
    ensures baseline.Some? && current.Some? ==>
              exists findings ::
                FindingsOf(baseline.value, current.value, findings) && code == ExitCode(findings, cited)
  {
    if baseline.None? || current.None? {
      return 2;
    }
    var findings := DetectDestructiveChanges(baseline.value, current.value);
    assert FindingsOf(baseline.value, current.value, findings);
    code := ExitCode(findings, cited);
  }

  /** The findings the gate computes. */
  ghost predicate FindingsOf(baseline: seq<File>, current: seq<File>, findings: seq<Finding>)
  {
    forall f :: f in findings <==> IsFinding(Index(baseline), Index(current), f)
  }
}
