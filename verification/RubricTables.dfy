/** What the importer's passes leave in the tables, counted row by row. */
module RubricTables {
  import opened Common
  import opened RubricStore

  // ---------- nodes by id ----------

  /** The last node of that id. */
  function LastNamed(nodes: seq<Node>, id: string): Option<Node>
  {
    if nodes == [] then None
    else if Last(nodes).id == id then Some(Last(nodes))
    else LastNamed(Front(nodes), id)
  }

  ghost predicate DistinctIds(nodes: seq<Node>)
  {
    forall i, j :: 0 <= i < j < |nodes| ==> nodes[i].id != nodes[j].id
  }

  lemma {:induction false} LastNamedIsMember(nodes: seq<Node>, id: string)
    ensures LastNamed(nodes, id).Some? <==> exists k :: 0 <= k < |nodes| && nodes[k].id == id
    ensures LastNamed(nodes, id).Some? ==> LastNamed(nodes, id).value in nodes && LastNamed(nodes, id).value.id == id
  {
    if nodes != [] {
      var front := Front(nodes);
      LastNamedIsMember(front, id);
      assert Last(nodes) == nodes[|nodes| - 1];
      assert forall k :: 0 <= k < |front| ==> front[k] == nodes[k];
    }
  }

  lemma {:induction false} PutHolds(nodes: seq<Node>, node: Node)
    requires DistinctIds(nodes)
    ensures DistinctIds(Put(nodes, node))
    ensures forall id :: LastNamed(Put(nodes, node), id) == if id == node.id then Some(node) else LastNamed(nodes, id)
  {
    if nodes == [] {
      assert Front([node]) == [];
    } else if Last(nodes).id == node.id {
      var after := Front(nodes) + [node];
      assert Front(after) == Front(nodes);
    } else {
      PutHolds(Front(nodes), node);
      var before := Put(Front(nodes), node);
      var after := before + [Last(nodes)];
      assert Front(after) == before;
      forall k | 0 <= k < |before|
        ensures before[k].id != Last(nodes).id
      {
        LastNamedIsMember(before, Last(nodes).id);
        LastNamedIsMember(Front(nodes), Last(nodes).id);
      }
    }
  }

  /** The dict holds each id once, with the last node of that id. */
  lemma {:induction false} ByIdKeepsTheLast(nodes: seq<Node>)
    ensures DistinctIds(ById(nodes))
    ensures forall id :: LastNamed(ById(nodes), id) == LastNamed(nodes, id)
  {
    if nodes != [] {
      ByIdKeepsTheLast(Front(nodes));
      PutHolds(ById(Front(nodes)), Last(nodes));
    }
  }

  // ---------- one pass ----------

  function Once(b: bool): nat { if b then 1 else 0 }

  function RowIs(version: nat, parent: nat, name: string): Row -> bool
  {
    (r: Row) => r.version == version && r.parent == parent && r.name == name
  }

  /** How many rows of a version carry that parent and name. */
  function Tally(table: seq<Row>, version: nat, parent: nat, name: string): nat
  {
    Count(table, RowIs(version, parent, name))
  }

  /** The document puts `id` under `parent`. */
  predicate IsChild(nodes: seq<Node>, id: string, parent: Option<string>)
  {
    LastNamed(nodes, id).Some? && LastNamed(nodes, id).value.parent == parent
  }

  /** `q` is the one id whose key is `p`. */
  ghost predicate OnlyKey(keys: Keys, q: Option<string>, p: nat)
  {
    q in keys && keys[q] == p && forall k :: k in keys && keys[k] == p ==> k == q
  }

  lemma ChildOneMore(nodes: seq<Node>, node: Node, id: string, q: Option<string>)
    requires DistinctIds(nodes + [node])
    ensures Once(IsChild(nodes + [node], id, q))
         == Once(IsChild(nodes, id, q)) + Once(node.id == id && node.parent == q)
  {
    var all := nodes + [node];
    assert Front(all) == nodes && Last(all) == node;
    LastNamedIsMember(nodes, node.id);
    forall k | 0 <= k < |nodes|
      ensures nodes[k].id != node.id
    {
      assert all[k].id != all[|nodes|].id;
    }
  }

  lemma {:induction false} AttachTally(table: seq<Row>, version: nat, keys: Keys, nodes: seq<Node>, p: nat,
                                       q: Option<string>, name: string)
    requires OnlyKey(keys, q, p) && DistinctIds(nodes)
    ensures Tally(Attach(table, version, keys, nodes), version, p, name)
         == Tally(table, version, p, name) + Once(IsChild(nodes, name, q))
  {
    if nodes != [] {
      var front, node := Front(nodes), Last(nodes);
      AttachTally(table, version, keys, front, p, q, name);
      assert nodes == front + [node];
      ChildOneMore(front, node, name, q);
      if node.parent in keys {
        var before := Attach(table, version, keys, front);
        TallyOneMore(before, Row(|before|, version, keys[node.parent], node.id), version, p, name);
        assert keys[node.parent] == p <==> node.parent == q;
      }
    }
  }

  lemma TallyOneMore(table: seq<Row>, row: Row, version: nat, p: nat, name: string)
    ensures Tally(table + [row], version, p, name)
         == Tally(table, version, p, name) + Once(row.version == version && row.parent == p && row.name == name)
  {
    assert Front(table + [row]) == table;
    assert RowIs(version, p, name)(row) <==> row.version == version && row.parent == p && row.name == name;
  }

  /** `longer` is `table` with rows added whose parents are `from` or above. */
  ghost predicate Grows(table: seq<Row>, longer: seq<Row>, from: nat)
  {
    && |table| <= |longer| && longer[..|table|] == table
    && (forall k :: |table| <= k < |longer| ==> from <= longer[k].parent)
  }

  ghost predicate Numbered(table: seq<Row>)
  {
    forall k :: 0 <= k < |table| ==> table[k].id == k
  }

  lemma {:induction false} AttachGrows(table: seq<Row>, version: nat, keys: Keys, nodes: seq<Node>, from: nat)
    requires forall q :: q in keys ==> from <= keys[q]
    ensures Grows(table, Attach(table, version, keys, nodes), from)
    ensures Numbered(table) ==> Numbered(Attach(table, version, keys, nodes))
    ensures forall k :: |table| <= k < |Attach(table, version, keys, nodes)| ==>
                          Attach(table, version, keys, nodes)[k].version == version
  {
    if nodes != [] {
      AttachGrows(table, version, keys, Front(nodes), from);
    }
  }

  /** The node a new row was made for. */
  ghost predicate MadeFrom(row: Row, keys: Keys, nodes: seq<Node>)
  {
    && LastNamed(nodes, row.name).Some?
    && var parent := LastNamed(nodes, row.name).value.parent;
       parent in keys && keys[parent] == row.parent
  }

  /** Keys and new rows name each other. */
  ghost predicate KeysMatch(table: seq<Row>, longer: seq<Row>, keys: Keys, made: Keys, nodes: seq<Node>)
  {
    && (forall k :: |table| <= k < |longer| ==>
          MadeFrom(longer[k], keys, nodes) && Some(longer[k].name) in made && made[Some(longer[k].name)] == k)
    && (forall q :: q in made ==> q.Some? && |table| <= made[q] < |longer| && longer[made[q]].name == q.value)
  }

  lemma {:induction false} AttachMatches(table: seq<Row>, version: nat, keys: Keys, nodes: seq<Node>)
    requires DistinctIds(nodes)
    ensures KeysMatch(table, Attach(table, version, keys, nodes), keys, KeysOf(table, version, keys, nodes), nodes)
  {
    if nodes != [] {
      var front, node := Front(nodes), Last(nodes);
      AttachMatches(table, version, keys, front);
      AttachGrows(table, version, keys, front, 0);
      LastNamedIsMember(front, node.id);
      assert forall k :: 0 <= k < |front| ==> front[k] == nodes[k];
      var before := Attach(table, version, keys, front);
      forall k | |table| <= k < |before|
        ensures MadeFrom(before[k], keys, nodes) && before[k].name != node.id
      {
        assert MadeFrom(before[k], keys, front);
      }
    }
  }

  lemma {:induction false} CountNone<T>(s: seq<T>, p: T -> bool)
    requires forall k :: 0 <= k < |s| ==> !p(s[k])
    ensures Count(s, p) == 0
  {
    if s != [] {
      assert !p(s[|s| - 1]);
      CountNone(Front(s), p);
    }
  }

  /** Rows added under other parents do not count. */
  lemma TallyKept(table: seq<Row>, longer: seq<Row>, from: nat, version: nat, p: nat, name: string)
    requires Grows(table, longer, from) && p < from
    ensures Tally(longer, version, p, name) == Tally(table, version, p, name)
  {
    var added := longer[|table|..];
    assert longer == table + added;
    CountAppend(table, added, RowIs(version, p, name));
    CountNone(added, RowIs(version, p, name));
  }

  // ---------- levels ----------

  function LevelIs(version: nat, competency: nat, l: LevelDoc): LevelRow -> bool
  {
    (r: LevelRow) =>
      r.version == version && r.competency == competency && r.rank == l.rank && r.descriptor == l.descriptor
  }

  function LevelTally(levels: seq<LevelRow>, version: nat, competency: nat, l: LevelDoc): nat
  {
    Count(levels, LevelIs(version, competency, l))
  }

  lemma {:induction false} AddLevelsTally(levels: seq<LevelRow>, version: nat, competency: nat, docs: seq<LevelDoc>,
                                          c: nat, l: LevelDoc)
    ensures LevelTally(AddLevels(levels, version, competency, docs), version, c, l)
         == LevelTally(levels, version, c, l) + (if c == competency then multiset(docs)[l] else 0)
  {
    if docs == [] {
      assert multiset(docs)[l] == 0;
    } else {
      AddLevelsTally(levels, version, competency, Front(docs), c, l);
      assert docs == Front(docs) + [Last(docs)];
      assert multiset(docs)[l] == multiset(Front(docs))[l] + Once(Last(docs) == l);
      var before := AddLevels(levels, version, competency, Front(docs));
      var row := LevelRow(|before|, version, competency, Last(docs).rank, Last(docs).descriptor);
      assert Front(before + [row]) == before;
      assert LevelIs(version, c, l)(row) <==> c == competency && Last(docs) == l;
    }
  }

  /** Every new competency gets the levels of its node, and no other one any. */
  lemma {:induction false} AttachLevelsTally(levels: seq<LevelRow>, version: nat, table: seq<Row>, keys: Keys,
                                             nodes: seq<Node>, c: nat, l: LevelDoc)
    requires DistinctIds(nodes)
    ensures
      var made := Attach(table, version, keys, nodes);
      LevelTally(AttachLevels(levels, version, table, keys, nodes), version, c, l)
      == LevelTally(levels, version, c, l)
         + if |table| <= c < |made| && LastNamed(nodes, made[c].name).Some?
           then multiset(LastNamed(nodes, made[c].name).value.levels)[l] else 0
  {
    if nodes != [] {
      var front, node := Front(nodes), Last(nodes);
      AttachLevelsTally(levels, version, table, keys, front, c, l);
      AttachGrows(table, version, keys, front, 0);
      AttachMatches(table, version, keys, front);
      LastNamedIsMember(front, node.id);
      assert forall k :: 0 <= k < |front| ==> front[k] == nodes[k];
      var before := Attach(table, version, keys, front);
      if |table| <= c < |before| {
        assert MadeFrom(before[c], keys, front);
      }
      if node.parent in keys {
        AddLevelsTally(AttachLevels(levels, version, table, keys, front), version, |before|, node.levels, c, l);
      }
    }
  }

  /** `longer` is `levels` with rows of that version added for competencies from..below. */
  ghost predicate LevelsGrow(levels: seq<LevelRow>, longer: seq<LevelRow>, version: nat, from: nat, below: nat)
  {
    && |levels| <= |longer| && longer[..|levels|] == levels
    && (forall k :: |levels| <= k < |longer| ==> longer[k].version == version && from <= longer[k].competency < below)
  }

  lemma {:induction false} AddLevelsGrows(levels: seq<LevelRow>, version: nat, competency: nat, docs: seq<LevelDoc>)
    ensures LevelsGrow(levels, AddLevels(levels, version, competency, docs), version, competency, competency + 1)
  {
    if docs != [] {
      AddLevelsGrows(levels, version, competency, Front(docs));
    }
  }

  lemma LevelsGrowOn(levels: seq<LevelRow>, longer: seq<LevelRow>, longest: seq<LevelRow>, version: nat, from: nat,
                     mid: nat, below: nat)
    requires LevelsGrow(levels, longer, version, from, mid) && LevelsGrow(longer, longest, version, mid, below)
    requires from <= mid <= below
    ensures LevelsGrow(levels, longest, version, from, below)
  {
    assert longest[..|levels|] == longer[..|levels|];
    forall k | |levels| <= k < |longest|
      ensures longest[k].version == version && from <= longest[k].competency < below
    {
      if k < |longer| {
        assert longest[..|longer|][k] == longer[k];
      }
    }
  }

  lemma {:induction false} AttachLevelsGrows(levels: seq<LevelRow>, version: nat, table: seq<Row>, keys: Keys,
                                             nodes: seq<Node>)
    ensures LevelsGrow(levels, AttachLevels(levels, version, table, keys, nodes), version,
                       |table|, |Attach(table, version, keys, nodes)|)
    ensures |table| <= |Attach(table, version, keys, nodes)|
  {
    if nodes != [] {
      var front, node := Front(nodes), Last(nodes);
      AttachLevelsGrows(levels, version, table, keys, front);
      if node.parent in keys {
        var before, made := AttachLevels(levels, version, table, keys, front), |Attach(table, version, keys, front)|;
        AddLevelsGrows(before, version, made, node.levels);
        LevelsGrowOn(levels, before, AddLevels(before, version, made, node.levels), version, |table|, made, made + 1);
      }
    }
  }

  lemma LevelTallyKept(levels: seq<LevelRow>, longer: seq<LevelRow>, made: nat, from: nat, below: nat, version: nat,
                       c: nat, l: LevelDoc)
    requires LevelsGrow(levels, longer, made, from, below) && (c < from || version != made)
    ensures LevelTally(longer, version, c, l) == LevelTally(levels, version, c, l)
  {
    var added := longer[|levels|..];
    assert longer == levels + added;
    CountAppend(levels, added, LevelIs(version, c, l));
    CountNone(added, LevelIs(version, c, l));
  }
}
