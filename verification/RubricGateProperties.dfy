/** What the gate's verdict means, and how it relates to the importer's own rename check. */
module RubricGateProperties {
  import opened Common
  import opened RubricStore
  import opened RubricTables
  import opened RubricRoundTrip
  import opened RubricHistory
  import opened RubricGate

  // ---------- the index, declaratively ----------

  /** The last node of that id over all files, with the file it stands in. */
  function LastIn(files: seq<File>, id: string): Option<(Doc, Node)>
  {
    if files == [] then None
    else
      var here := LastNamed(Last(files).doc.nodes, id);
      if here.Some? then Some((Last(files).doc, here.value)) else LastIn(Front(files), id)
  }

  lemma {:induction false} IndexNodesOfIsLast(index: map<string, Projection>, doc: Doc, nodes: seq<Node>, id: string)
    ensures
      var after := IndexNodesOf(index, doc, nodes);
      if LastNamed(nodes, id).Some? then id in after && after[id] == Projected(doc, LastNamed(nodes, id).value)
      else (id in after <==> id in index) && (id in index ==> after[id] == index[id])
  {
    if nodes != [] {
      IndexNodesOfIsLast(index, doc, Front(nodes), id);
    }
  }

  lemma {:induction false} IndexIsProjected(files: seq<File>, id: string)
    ensures
      var last := LastIn(files, id);
      (id in Index(files) <==> last.Some?) && (last.Some? ==> Index(files)[id] == Projected(last.value.0, last.value.1))
  {
    if files != [] {
      IndexIsProjected(Front(files), id);
      IndexNodesOfIsLast(Index(Front(files)), Last(files).doc, Last(files).doc.nodes, id);
    }
  }

  /** The last level document of that rank has this descriptor. */
  ghost predicate Describes(levels: seq<LevelDoc>, rank: nat, descriptor: string)
  {
    exists k :: 0 <= k < |levels| && levels[k] == LevelDoc(rank, descriptor)
                && forall j :: k < j < |levels| ==> levels[j].rank != rank
  }

  lemma {:induction false} LevelMapDescribes(levels: seq<LevelDoc>, rank: nat, descriptor: string)
    ensures rank in LevelMap(levels) && LevelMap(levels)[rank] == descriptor <==> Describes(levels, rank, descriptor)
  {
    if levels != [] {
      var front := Front(levels);
      LevelMapDescribes(front, rank, descriptor);
      assert levels[|levels| - 1] == Last(levels);
      assert forall k :: 0 <= k < |front| ==> front[k] == levels[k];
      if Describes(front, rank, descriptor) && Last(levels).rank != rank {
        var k :| 0 <= k < |front| && front[k] == LevelDoc(rank, descriptor)
                 && forall j :: k < j < |front| ==> front[j].rank != rank;
        assert levels[k] == LevelDoc(rank, descriptor);
      }
    }
  }

  /** A node is retired with its file. */
  predicate Retired(doc: Doc, node: Node)
  {
    doc.retired || node.retired
  }

  /** The index, from the documents: an id is in it with the last node that carries it, retired if
      node or file is, and with each of its levels under the descriptor that comes last. */
  lemma IndexIsLast(files: seq<File>, id: string)
    ensures
      var last := LastIn(files, id);
      && (id in Index(files) <==> last.Some?)
      && (last.Some? ==>
            && (Index(files)[id].retired <==> Retired(last.value.0, last.value.1))
            && (forall rank: nat, d: string ::
                  rank in Index(files)[id].levels && Index(files)[id].levels[rank] == d
                  <==> Describes(last.value.1.levels, rank, d)))
  {
    IndexIsProjected(files, id);
    var last := LastIn(files, id);
    if last.Some? {
      forall rank: nat, d: string
        ensures rank in Index(files)[id].levels && Index(files)[id].levels[rank] == d
           <==> Describes(last.value.1.levels, rank, d)
      {
        LevelMapDescribes(last.value.1.levels, rank, d);
      }
    }
  }

  lemma {:induction false} IndexedIsDeclared(files: seq<File>, id: string)
    ensures id in Index(files) <==> Declares(files, id)
  {
    if files != [] {
      var front, file := Front(files), Last(files);
      IndexedIsDeclared(front, id);
      IndexNodesOfIsLast(Index(front), file.doc, file.doc.nodes, id);
      LastNamedIsMember(file.doc.nodes, id);
      DeclaresOneMore(front, file);
      assert front + [file] == files;
    }
  }

  // ---------- no findings ----------

  ghost predicate NoFindings(baseline: seq<File>, current: seq<File>)
  {
    forall f :: !IsFinding(Index(baseline), Index(current), f)
  }

  /** `now` keeps every node: still there, as retired as it was, and with every level it
      had while active under the same descriptor. */
  predicate Keeps(was: Projection, now: Projection)
  {
    && was.retired == now.retired
    && (!was.retired ==>
          forall rank :: rank in was.levels ==> rank in now.levels && now.levels[rank] == was.levels[rank])
  }

  ghost predicate Extends(baseline: seq<File>, current: seq<File>)
  {
    forall id :: Declares(baseline, id) ==>
      && Declares(current, id)
      && LastIn(baseline, id).Some? && LastIn(current, id).Some?
      && KeepsNode(LastIn(baseline, id).value, LastIn(current, id).value)
  }

  /** The node is as retired as it was, and one that is active has every level it had, under the
      same descriptor. */
  ghost predicate KeepsNode(was: (Doc, Node), now: (Doc, Node))
  {
    && (Retired(was.0, was.1) <==> Retired(now.0, now.1))
    && (!Retired(was.0, was.1) ==>
          forall rank: nat, d: string :: Describes(was.1.levels, rank, d) ==> Describes(now.1.levels, rank, d))
  }

  lemma KeepsIsKeepsNode(was: (Doc, Node), now: (Doc, Node))
    ensures Keeps(Projected(was.0, was.1), Projected(now.0, now.1)) <==> KeepsNode(was, now)
  {
    var before, after := LevelMap(was.1.levels), LevelMap(now.1.levels);
    forall rank: nat, d: string
      ensures rank in before && before[rank] == d <==> Describes(was.1.levels, rank, d)
      ensures rank in after && after[rank] == d <==> Describes(now.1.levels, rank, d)
    {
      LevelMapDescribes(was.1.levels, rank, d);
      LevelMapDescribes(now.1.levels, rank, d);
    }
    if KeepsNode(was, now) && !Retired(was.0, was.1) {
      forall rank | rank in before
        ensures rank in after && after[rank] == before[rank]
      {
        assert Describes(was.1.levels, rank, before[rank]);
      }
    }
  }

  lemma KeptHasNoFinding(was: map<string, Projection>, now: map<string, Projection>, f: Finding)
    requires f.id in was ==> f.id in now && Keeps(was[f.id], now[f.id])
    ensures !IsFinding(was, now, f)
  {
  }

  lemma UnreportedIsKept(was: map<string, Projection>, now: map<string, Projection>, id: string)
    requires id in was && forall f :: !IsFinding(was, now, f)
    ensures id in now && Keeps(was[id], now[id])
  {
    assert !IsFinding(was, now, Finding(Forbidden, NodeRemoved, id, None));
    assert !IsFinding(was, now, Finding(Destructive, NodeRetired, id, None));
    assert !IsFinding(was, now, Finding(Destructive, NodeUnretired, id, None));
    if !was[id].retired {
      forall rank | rank in was[id].levels
        ensures rank in now[id].levels && now[id].levels[rank] == was[id].levels[rank]
      {
        assert !IsFinding(was, now, Finding(Destructive, LevelRemoved, id, Some(rank)));
        assert !IsFinding(was, now, Finding(Destructive, LevelRetyped, id, Some(rank)));
      }
    }
  }

  /** The gate is silent exactly when the current documents extend the baseline. */
  lemma SilentIffExtension(baseline: seq<File>, current: seq<File>)
    ensures NoFindings(baseline, current) <==> Extends(baseline, current)
  {
    var was, now := Index(baseline), Index(current);
    forall id
      ensures id in was <==> Declares(baseline, id)
      ensures id in now <==> Declares(current, id)
      ensures
        var last := LastIn(baseline, id);
        id in was ==> last.Some? && was[id] == Projected(last.value.0, last.value.1)
      ensures
        var last := LastIn(current, id);
        id in now ==> last.Some? && now[id] == Projected(last.value.0, last.value.1)
      ensures id in was && id in now ==>
                (Keeps(was[id], now[id]) <==> KeepsNode(LastIn(baseline, id).value, LastIn(current, id).value))
    {
      IndexedIsDeclared(baseline, id);
      IndexedIsDeclared(current, id);
      IndexIsProjected(baseline, id);
      IndexIsProjected(current, id);
      if LastIn(baseline, id).Some? && LastIn(current, id).Some? {
        KeepsIsKeepsNode(LastIn(baseline, id).value, LastIn(current, id).value);
      }
    }
    if NoFindings(baseline, current) {
      forall id | Declares(baseline, id)
        ensures id in now && Keeps(was[id], now[id])
      {
        UnreportedIsKept(was, now, id);
      }
    }
    if Extends(baseline, current) {
      forall f
        ensures !IsFinding(was, now, f)
      {
        assert f.id in was ==> Declares(baseline, f.id);
        KeptHasNoFinding(was, now, f);
      }
    }
  }

  // ---------- the findings, from the documents ----------

  ghost predicate HasLevel(node: Node, rank: nat)
  {
    exists k :: 0 <= k < |node.levels| && node.levels[k].rank == rank
  }

  /** A difference between two directories, of the kind and under the id and rank reported. */
  ghost predicate Differs(baseline: seq<File>, current: seq<File>, f: Finding)
  {
    var was, now := LastIn(baseline, f.id), LastIn(current, f.id);
    && was.Some?
    && match f
       case Finding(Forbidden, NodeRemoved, _, None) => now.None?
       case Finding(Destructive, NodeRetired, _, None) =>
         now.Some? && !Retired(was.value.0, was.value.1) && Retired(now.value.0, now.value.1)
       case Finding(Destructive, NodeUnretired, _, None) =>
         now.Some? && Retired(was.value.0, was.value.1) && !Retired(now.value.0, now.value.1)
       case Finding(Destructive, LevelRemoved, _, Some(rank)) =>
         && now.Some? && !Retired(was.value.0, was.value.1) && !Retired(now.value.0, now.value.1)
         && HasLevel(was.value.1, rank) && !HasLevel(now.value.1, rank)
       case Finding(Destructive, LevelRetyped, _, Some(rank)) =>
         && now.Some? && !Retired(was.value.0, was.value.1) && !Retired(now.value.0, now.value.1)
         && exists d, d' :: d != d' && Describes(was.value.1.levels, rank, d) && Describes(now.value.1.levels, rank, d')
       case _ => false
  }

  lemma {:induction false} RanksAreMapped(levels: seq<LevelDoc>, rank: nat)
    ensures rank in LevelMap(levels) <==> exists k :: 0 <= k < |levels| && levels[k].rank == rank
  {
    if levels != [] {
      var front := Front(levels);
      RanksAreMapped(front, rank);
      assert levels[|levels| - 1] == Last(levels);
      assert forall k :: 0 <= k < |front| ==> front[k] == levels[k];
    }
  }

  /** Two sides of a level that is retyped. */
  lemma RetypedLevels(was: seq<LevelDoc>, now: seq<LevelDoc>, rank: nat)
    ensures rank in LevelMap(was) && rank in LevelMap(now) && LevelMap(was)[rank] != LevelMap(now)[rank]
       <==> exists d, d' :: d != d' && Describes(was, rank, d) && Describes(now, rank, d')
  {
    forall d
      ensures rank in LevelMap(was) && LevelMap(was)[rank] == d <==> Describes(was, rank, d)
      ensures rank in LevelMap(now) && LevelMap(now)[rank] == d <==> Describes(now, rank, d)
    {
      LevelMapDescribes(was, rank, d);
      LevelMapDescribes(now, rank, d);
    }
    if rank in LevelMap(was) && rank in LevelMap(now) {
      assert Describes(was, rank, LevelMap(was)[rank]) && Describes(now, rank, LevelMap(now)[rank]);
    }
  }

  /** What the gate reports is exactly how the documents differ. */
  lemma FindingsAreDifferences(baseline: seq<File>, current: seq<File>, f: Finding)
    ensures IsFinding(Index(baseline), Index(current), f) <==> Differs(baseline, current, f)
  {
    hide LevelMap, Describes, LastIn, Index;
    IndexIsProjected(baseline, f.id);
    IndexIsProjected(current, f.id);
    var was, now := LastIn(baseline, f.id), LastIn(current, f.id);
    if was.Some? && now.Some? && f.rank.Some? {
      var rank := f.rank.value;
      RanksAreMapped(was.value.1.levels, rank);
      RanksAreMapped(now.value.1.levels, rank);
      RetypedLevels(was.value.1.levels, now.value.1.levels, rank);
    }
  }

  lemma ExtendsIsReflexive(files: seq<File>)
    ensures NoFindings(files, files)
  {
  }

  lemma ExtendsIsTransitive(a: seq<File>, b: seq<File>, c: seq<File>)
    requires NoFindings(a, b) && NoFindings(b, c)
    ensures NoFindings(a, c)
  {
    var was, mid, now := Index(a), Index(b), Index(c);
    forall f
      ensures !IsFinding(was, now, f)
    {
      if f.id in was {
        UnreportedIsKept(was, mid, f.id);
        UnreportedIsKept(mid, now, f.id);
      }
      KeptHasNoFinding(was, now, f);
    }
  }

  /** A chain of benign edits is benign from end to end. */
  lemma {:induction false} BenignChains(chain: seq<seq<File>>, i: nat, j: nat)
    requires i <= j < |chain|
    requires forall k :: 0 <= k < |chain| - 1 ==> NoFindings(chain[k], chain[k + 1])
    ensures NoFindings(chain[i], chain[j])
    decreases j
  {
    if i == j {
      ExtendsIsReflexive(chain[i]);
    } else {
      BenignChains(chain, i, j - 1);
      assert NoFindings(chain[j - 1], chain[j - 1 + 1]);
      ExtendsIsTransitive(chain[i], chain[j - 1], chain[j]);
    }
  }

  // ---------- the verdict ----------

  /** The gate refuses outright, whatever is cited, exactly when an id has vanished; it
      passes without a citation exactly when the current documents extend the baseline. */
  lemma VerdictIsExact(baseline: seq<File>, current: seq<File>, findings: seq<Finding>, cited: bool)
    requires FindingsOf(baseline, current, findings)
    ensures ExitCode(findings, cited) == 2 <==> exists id :: Declares(baseline, id) && !Declares(current, id)
    ensures ExitCode(findings, false) == 0 <==> Extends(baseline, current)
    ensures ExitCode(findings, true) == 0 || ExitCode(findings, true) == 2
    ensures ExitCode(findings, false) <= 2
  {
    SilentIffExtension(baseline, current);
    var was, now := Index(baseline), Index(current);
    forall id
      ensures id in was <==> Declares(baseline, id)
      ensures id in now <==> Declares(current, id)
    {
      IndexedIsDeclared(baseline, id);
      IndexedIsDeclared(current, id);
    }
    if exists k :: 0 <= k < |findings| && findings[k].severity.Forbidden? {
      var k :| 0 <= k < |findings| && findings[k].severity.Forbidden?;
      assert findings[k] in findings;
      assert Declares(baseline, findings[k].id) && !Declares(current, findings[k].id);
    } else {
      forall id | Declares(baseline, id)
        ensures Declares(current, id)
      {
        var f := Finding(Forbidden, NodeRemoved, id, None);
        assert f !in findings;
      }
    }
    if findings != [] {
      assert findings[0] in findings;
    }
  }

  // ---------- the importer's rename check ----------

  /** The document makes `id` a competency: its parent is one of the roots. */
  ghost predicate IsCompetency(nodes: seq<Node>, id: string)
  {
    exists block :: IsChild(nodes, id, Some(block)) && IsChild(nodes, block, None)
  }

  ghost predicate DeclaresCompetency(files: seq<File>, id: string)
  {
    exists f :: 0 <= f < |files| && IsCompetency(files[f].doc.nodes, id)
  }

  lemma {:induction false} TallyCounts(table: seq<Row>, v: nat, p: nat, id: string)
    ensures Tally(table, v, p, id) > 0 <==>
              exists k :: 0 <= k < |table| && table[k].version == v && table[k].parent == p && table[k].name == id
  {
    if table != [] {
      var front, row := Front(table), Last(table);
      TallyCounts(front, v, p, id);
      TallyOneMore(front, row, v, p, id);
      assert front + [row] == table;
      assert table[|table| - 1] == row;
      assert forall k :: 0 <= k < |front| ==> front[k] == table[k];
    }
  }

  lemma {:induction false} DocOfIsTheFile(files: seq<File>, f: nat)
    requires DistinctStems(files) && f < |files|
    ensures DocOf(files, files[f].stem) == Some(files[f].doc)
  {
    if f < |files| - 1 {
      assert files[f].stem != files[|files| - 1].stem;
      assert Front(files)[f] == files[f];
      DocOfIsTheFile(Front(files), f);
    }
  }

  ghost predicate NamesCompetency(t: Tables, v: nat, id: string)
  {
    exists m :: 0 <= m < |t.competencies| && t.competencies[m].version == v && t.competencies[m].name == id
  }

  lemma RowIsDeclared(t: Tables, v: nat, files: seq<File>, m: nat)
    requires WellFormed(t) && VersionsAgree(t) && TreeMatches(t, v, files)
    requires m < |t.competencies| && t.competencies[m].version == v
    ensures DeclaresCompetency(files, t.competencies[m].name)
  {
    var k := t.competencies[m].parent;
    var i := t.blocks[k].parent;
    var stem, id := t.stacks[i].name, t.competencies[m].name;
    DocOfMember(files, stem);
    var nodes := DocOf(files, stem).value.nodes;
    assert StackMatches(t, v, i, nodes) && BlockMatches(t, v, k, nodes);
    TallyCounts(t.blocks, v, i, t.blocks[k].name);
    TallyCounts(t.competencies, v, k, id);
    assert IsCompetency(nodes, id);
    DocOfIsAFile(files, stem);
  }

  lemma {:induction false} DocOfIsAFile(files: seq<File>, stem: string)
    requires DocOf(files, stem).Some?
    ensures exists f :: 0 <= f < |files| && files[f].doc == DocOf(files, stem).value
  {
    if Last(files).stem == stem {
      assert files[|files| - 1].doc == DocOf(files, stem).value;
    } else {
      DocOfIsAFile(Front(files), stem);
      var f :| 0 <= f < |Front(files)| && Front(files)[f].doc == DocOf(Front(files), stem).value;
      assert files[f].doc == DocOf(files, stem).value;
    }
  }

  lemma DeclaredHasRow(t: Tables, v: nat, files: seq<File>, f: nat, id: string)
    requires WellFormed(t) && DistinctStems(files) && TreeMatches(t, v, files)
    requires f < |files| && IsCompetency(files[f].doc.nodes, id)
    ensures NamesCompetency(t, v, id)
  {
    var nodes, stem := files[f].doc.nodes, files[f].stem;
    var block :| IsChild(nodes, id, Some(block)) && IsChild(nodes, block, None);
    DocOfIsTheFile(files, f);
    TallyCounts(t.stacks, v, 0, stem);
    var i :| 0 <= i < |t.stacks| && t.stacks[i].version == v && t.stacks[i].name == stem;
    assert StackMatches(t, v, i, nodes);
    TallyCounts(t.blocks, v, i, block);
    var k :| 0 <= k < |t.blocks| && t.blocks[k].version == v && t.blocks[k].parent == i && t.blocks[k].name == block;
    assert BlockMatches(t, v, k, nodes);
    TallyCounts(t.competencies, v, k, id);
  }

  /** The competency names of a created version are the competency ids of its files. */
  lemma PriorNamesAreDeclared(db: Database, p: Payload, id: string)
    requires DatabaseInvariant(db) && DistinctStems(p.files) && !IsKnown(db, p.hash)
    ensures IsPriorName(WithVersion(db, p), id) <==> DeclaresCompetency(p.files, id)
  {
    var db', v := WithVersion(db, p), |db.versions|;
    NewVersionKeeps(db, p);
    assert IsPriorName(db', id) <==> NamesCompetency(db'.tables, v, id);
    if NamesCompetency(db'.tables, v, id) {
      var rows := db'.tables.competencies;
      var m :| 0 <= m < |rows| && rows[m].version == v && rows[m].name == id;
      RowIsDeclared(db'.tables, v, p.files, m);
    }
    if DeclaresCompetency(p.files, id) {
      var f :| 0 <= f < |p.files| && IsCompetency(p.files[f].doc.nodes, id);
      DeclaredHasRow(db'.tables, v, p.files, f, id);
    }
  }

  ghost predicate RenameCheckFires(db: Database, files: seq<File>)
  {
    exists id :: HasDisappeared(db, files, id)
  }

  /** When the latest version came from the baseline: the importer refuses the current
      files exactly when a competency of the baseline is gone from them or has an id that
      starts with "block.". */
  lemma RenameCheckIsExact(db: Database, baseline: Payload, current: seq<File>)
    requires DatabaseInvariant(db)
    requires DistinctStems(baseline.files) && !IsKnown(db, baseline.hash)
    ensures RenameCheckFires(WithVersion(db, baseline), current)
       <==> exists id :: DeclaresCompetency(baseline.files, id) && (!Declares(current, id) || IsBlockId(id))
  {
    var db' := WithVersion(db, baseline);
    forall id
      ensures IsPriorName(db', id) <==> DeclaresCompetency(baseline.files, id)
    {
      PriorNamesAreDeclared(db, baseline, id);
    }
    if RenameCheckFires(db', current) {
      var id :| HasDisappeared(db', current, id);
      assert DeclaresCompetency(baseline.files, id) && (!Declares(current, id) || IsBlockId(id));
    }
    if id :| DeclaresCompetency(baseline.files, id) && (!Declares(current, id) || IsBlockId(id)) {
      assert HasDisappeared(db', current, id);
    }
  }

  lemma CompetencyIsDeclared(files: seq<File>, id: string)
    requires DeclaresCompetency(files, id)
    ensures Declares(files, id)
  {
    var f :| 0 <= f < |files| && IsCompetency(files[f].doc.nodes, id);
    LastNamedIsMember(files[f].doc.nodes, id);
  }

  /** What the gate lets through, the importer accepts, exactly when no competency of the
      baseline has an id that starts with "block." (blocks alone should). */
  lemma GateImpliesImporter(db: Database, baseline: Payload, current: seq<File>)
    requires DatabaseInvariant(db)
    requires DistinctStems(baseline.files) && !IsKnown(db, baseline.hash)
    requires forall id :: Declares(baseline.files, id) ==> Declares(current, id)
    ensures RenameCheckFires(WithVersion(db, baseline), current)
       <==> exists id :: DeclaresCompetency(baseline.files, id) && IsBlockId(id)
  {
    RenameCheckIsExact(db, baseline, current);
    if id :| DeclaresCompetency(baseline.files, id) && (!Declares(current, id) || IsBlockId(id)) {
      CompetencyIsDeclared(baseline.files, id);
    }
  }

  // ---------- a directory on which they disagree ----------

  /** One root, and a competency under it whose id starts with "block.". */
  const PREFIXED: seq<File> :=
    [File("s", Doc(false, [Node("x", None, false, []), Node("block.x.y", Some("x"), false, [])]))]

  /** The same with one competency more. */
  const EXTENDED: seq<File> :=
    [File("s", Doc(false, [Node("x", None, false, []), Node("block.x.y", Some("x"), false, []),
                           Node("z", Some("x"), false, [])]))]

  lemma NamesOfPrefixed()
    ensures LastNamed(PREFIXED[0].doc.nodes, "x") == Some(Node("x", None, false, []))
    ensures LastNamed(PREFIXED[0].doc.nodes, "block.x.y") == Some(Node("block.x.y", Some("x"), false, []))
    ensures IsBlockId("block.x.y")
  {
    var nodes := PREFIXED[0].doc.nodes;
    assert Front(nodes) == [Node("x", None, false, [])];
  }

  lemma IndexOfOne(f: File)
    ensures Index([f]) == IndexNodesOf(map[], f.doc, f.doc.nodes)
  {
    assert Front([f]) == [] && Index([]) == map[] && Last([f]) == f;
  }

  /** Adding a node, whatever it is, to a file. */
  lemma AddingANodeIsBenign(stem: string, doc: Doc, node: Node)
    requires LastNamed(doc.nodes, node.id).None?
    ensures NoFindings([File(stem, doc)], [File(stem, doc.(nodes := doc.nodes + [node]))])
  {
    var longer := doc.(nodes := doc.nodes + [node]);
    var was, now := Index([File(stem, doc)]), Index([File(stem, longer)]);
    assert Front(longer.nodes) == doc.nodes && Last(longer.nodes) == node;
    IndexOfOne(File(stem, doc));
    IndexOfOne(File(stem, longer));
    forall f
      ensures !IsFinding(was, now, f)
    {
      IndexNodesOfIsLast(map[], doc, doc.nodes, f.id);
      IndexNodesOfIsLast(map[], longer, longer.nodes, f.id);
      assert f.id != node.id ==> LastNamed(longer.nodes, f.id) == LastNamed(doc.nodes, f.id);
      KeptHasNoFinding(was, now, f);
    }
  }

  /** The database once the baseline is seeded into an empty one. */
  function BaselineSeeded(): Database
  {
    WithVersion(EMPTY_DATABASE, Payload("h", PREFIXED))
  }

  lemma BlockCompetencyDisappears()
    ensures HasDisappeared(BaselineSeeded(), EXTENDED, "block.x.y")
  {
    NamesOfPrefixed();
    var nodes := PREFIXED[0].doc.nodes;
    assert IsChild(nodes, "block.x.y", Some("x")) && IsChild(nodes, "x", None);
    assert IsCompetency(PREFIXED[0].doc.nodes, "block.x.y");
    PriorNamesAreDeclared(EMPTY_DATABASE, Payload("h", PREFIXED), "block.x.y");
  }

  lemma ExtensionIsBenign()
    ensures NoFindings(PREFIXED, EXTENDED)
  {
    var doc := PREFIXED[0].doc;
    assert LastNamed(doc.nodes, "z").None? by {
      LastNamedIsMember(doc.nodes, "z");
    }
    AddingANodeIsBenign("s", doc, Node("z", Some("x"), false, []));
  }

  /** The gate finds nothing to report in the extension, and the importer, whose latest version
      is the baseline, refuses it for a rename. */
  lemma GatePassesWhatTheImporterRefuses(dryRun: bool, db': Database, r: SeedResult)
    requires Seeded(BaselineSeeded(), Payload("i", EXTENDED), dryRun, db', r)
    ensures NoFindings(PREFIXED, EXTENDED)
    ensures r.RenameForbidden? && "block.x.y" in r.ids
  {
    ExtensionIsBenign();
    BlockCompetencyDisappears();
  }

  /** ... and that is what a seed answers; it leaves the database as it was. */
  lemma TheImporterRefuses() returns (ids: set<string>)
    ensures Seeded(BaselineSeeded(), Payload("i", EXTENDED), false, BaselineSeeded(), RenameForbidden(ids))
    ensures "block.x.y" in ids
  {
    var rows := BaselineSeeded().tables.competencies;
    ids := set k | 0 <= k < |rows| && HasDisappeared(BaselineSeeded(), EXTENDED, rows[k].name) :: rows[k].name;
    BlockCompetencyDisappears();
  }
}
