/** Seeding and then taking a snapshot gives back the documents' forest, and no later seed
    changes the snapshot of an earlier version. */
module RubricRoundTrip {
  import opened Common
  import opened RubricStore
  import opened RubricTables

  // ---------- what the tables hold for a version ----------

  ghost predicate CompetencyMatches(t: Tables, v: nat, m: nat, nodes: seq<Node>)
    requires m < |t.competencies|
  {
    var name := t.competencies[m].name;
    && LastNamed(nodes, name).Some?
    && (forall id :: Tally(t.topics, v, m, id) == Once(IsChild(nodes, id, Some(name))))
    && (forall l :: LevelTally(t.levels, v, m, l) == multiset(LastNamed(nodes, name).value.levels)[l])
  }

  ghost predicate BlockMatches(t: Tables, v: nat, k: nat, nodes: seq<Node>)
    requires k < |t.blocks|
  {
    && (forall id :: Tally(t.competencies, v, k, id) == Once(IsChild(nodes, id, Some(t.blocks[k].name))))
    && (forall m :: 0 <= m < |t.competencies| && t.competencies[m].version == v && t.competencies[m].parent == k ==>
          CompetencyMatches(t, v, m, nodes))
  }

  ghost predicate StackMatches(t: Tables, v: nat, i: nat, nodes: seq<Node>)
  {
    && (forall id :: Tally(t.blocks, v, i, id) == Once(IsChild(nodes, id, None)))
    && (forall k :: 0 <= k < |t.blocks| && t.blocks[k].version == v && t.blocks[k].parent == i ==>
          BlockMatches(t, v, k, nodes))
  }

  /** The last file of that name; the files of a directory have distinct names. */
  function DocOf(files: seq<File>, stem: string): Option<Doc>
  {
    if files == [] then None
    else if Last(files).stem == stem then Some(Last(files).doc)
    else DocOf(Front(files), stem)
  }

  ghost predicate TreeMatches(t: Tables, v: nat, files: seq<File>)
  {
    && (forall stem :: Tally(t.stacks, v, 0, stem) == Once(DocOf(files, stem).Some?))
    && (forall i :: 0 <= i < |t.stacks| && t.stacks[i].version == v ==>
          DocOf(files, t.stacks[i].name).Some? && StackMatches(t, v, i, DocOf(files, t.stacks[i].name).value.nodes))
  }

  /** Row numbers are keys, and foreign keys point into their tables. */
  ghost predicate WellFormed(t: Tables)
  {
    && Numbered(t.stacks) && Numbered(t.blocks) && Numbered(t.competencies)
    && Under(t.blocks, |t.stacks|) && Under(t.competencies, |t.blocks|) && Under(t.topics, |t.competencies|)
    && (forall k :: 0 <= k < |t.levels| ==> t.levels[k].competency < |t.competencies|)
  }

  ghost predicate Under(table: seq<Row>, bound: nat)
  {
    forall k :: 0 <= k < |table| ==> table[k].parent < bound
  }

  lemma FreshTally(table: seq<Row>, bound: nat, v: nat, p: nat)
    requires Under(table, bound) && bound <= p
    ensures forall id :: Tally(table, v, p, id) == 0
  {
    forall id
      ensures Tally(table, v, p, id) == 0
    {
      CountNone(table, RowIs(v, p, id));
    }
  }

  lemma FreshParentIsNew(table: seq<Row>, longer: seq<Row>, bound: nat, k: nat)
    requires Under(table, bound) && Grows(table, longer, 0) && k < |longer| && bound <= longer[k].parent
    ensures |table| <= k
  {
    forall j | 0 <= j < |table|
      ensures longer[j].parent < bound
    {
      assert longer[..|table|][j] == table[j];
    }
  }

  // ---------- one more file ----------

  /** `longer` has rows of one more stack. */
  ghost predicate TablesGrow(t: Tables, longer: Tables, v: nat)
  {
    && Grows(t.stacks, longer.stacks, 0) && Grows(t.blocks, longer.blocks, |t.stacks|)
    && Grows(t.competencies, longer.competencies, |t.blocks|) && Grows(t.topics, longer.topics, |t.competencies|)
    && LevelsGrow(t.levels, longer.levels, v, |t.competencies|, |longer.competencies|)
  }

  lemma CompetencyStays(t: Tables, longer: Tables, v: nat, m: nat, nodes: seq<Node>)
    requires TablesGrow(t, longer, v) && m < |t.competencies|
    requires CompetencyMatches(t, v, m, nodes)
    ensures CompetencyMatches(longer, v, m, nodes)
  {
    assert longer.competencies[..|t.competencies|][m] == t.competencies[m];
    forall id
      ensures Tally(longer.topics, v, m, id) == Tally(t.topics, v, m, id)
    {
      TallyKept(t.topics, longer.topics, |t.competencies|, v, m, id);
    }
    forall l
      ensures LevelTally(longer.levels, v, m, l) == LevelTally(t.levels, v, m, l)
    {
      LevelTallyKept(t.levels, longer.levels, v, |t.competencies|, |longer.competencies|, v, m, l);
    }
  }

  lemma BlockStays(t: Tables, longer: Tables, v: nat, k: nat, nodes: seq<Node>)
    requires TablesGrow(t, longer, v) && k < |t.blocks|
    requires BlockMatches(t, v, k, nodes)
    ensures BlockMatches(longer, v, k, nodes)
  {
    assert longer.blocks[..|t.blocks|][k] == t.blocks[k];
    forall id
      ensures Tally(longer.competencies, v, k, id) == Tally(t.competencies, v, k, id)
    {
      TallyKept(t.competencies, longer.competencies, |t.blocks|, v, k, id);
    }
    var rows := longer.competencies;
    forall m | 0 <= m < |rows| && rows[m].version == v && rows[m].parent == k
      ensures CompetencyMatches(longer, v, m, nodes)
    {
      assert m < |t.competencies|;
      assert longer.competencies[..|t.competencies|][m] == t.competencies[m];
      CompetencyStays(t, longer, v, m, nodes);
    }
  }

  lemma StackStays(t: Tables, longer: Tables, v: nat, i: nat, nodes: seq<Node>)
    requires TablesGrow(t, longer, v) && i < |t.stacks|
    requires StackMatches(t, v, i, nodes)
    ensures StackMatches(longer, v, i, nodes)
  {
    forall id
      ensures Tally(longer.blocks, v, i, id) == Tally(t.blocks, v, i, id)
    {
      TallyKept(t.blocks, longer.blocks, |t.stacks|, v, i, id);
    }
    forall k | 0 <= k < |longer.blocks| && longer.blocks[k].version == v && longer.blocks[k].parent == i
      ensures BlockMatches(longer, v, k, nodes)
    {
      assert k < |t.blocks|;
      assert longer.blocks[..|t.blocks|][k] == t.blocks[k];
      BlockStays(t, longer, v, k, nodes);
    }
  }

  /** The keys each pass hands to the next. */
  function RootKeys(t: Tables): Keys { map[None := |t.stacks|] }

  function BlockKeys(t: Tables, v: nat, nodes: seq<Node>): Keys
  {
    KeysOf(t.blocks, v, RootKeys(t), nodes)
  }

  function CompetencyKeys(t: Tables, v: nat, nodes: seq<Node>): Keys
  {
    KeysOf(t.competencies, v, BlockKeys(t, v, nodes), nodes)
  }

  lemma MaterialisedGrows(t: Tables, v: nat, file: File)
    requires WellFormed(t)
    ensures TablesGrow(t, Materialised(t, v, file), v) && WellFormed(Materialised(t, v, file))
  {
    var nodes := ById(file.doc.nodes);
    ByIdKeepsTheLast(file.doc.nodes);
    var longer := Materialised(t, v, file);
    var blocks, competencies := BlockKeys(t, v, nodes), CompetencyKeys(t, v, nodes);
    AttachMatches(t.blocks, v, RootKeys(t), nodes);
    AttachMatches(t.competencies, v, blocks, nodes);
    AttachMatches(t.topics, v, competencies, nodes);
    AttachGrows(t.blocks, v, RootKeys(t), nodes, |t.stacks|);
    AttachGrows(t.competencies, v, blocks, nodes, |t.blocks|);
    AttachGrows(t.topics, v, competencies, nodes, |t.competencies|);
    AttachLevelsGrows(t.levels, v, t.competencies, blocks, nodes);
    StaysUnder(t.blocks, longer.blocks, RootKeys(t), nodes, |t.stacks| + 1, KeysOf(t.blocks, v, RootKeys(t), nodes));
    StaysUnder(t.competencies, longer.competencies, blocks, nodes, |longer.blocks|,
               KeysOf(t.competencies, v, blocks, nodes));
    StaysUnder(t.topics, longer.topics, competencies, nodes, |longer.competencies|,
               KeysOf(t.topics, v, competencies, nodes));
    forall k | 0 <= k < |longer.levels|
      ensures longer.levels[k].competency < |longer.competencies|
    {
      if k < |t.levels| {
        assert longer.levels[..|t.levels|][k] == t.levels[k];
      }
    }
  }

  lemma StaysUnder(table: seq<Row>, longer: seq<Row>, keys: Keys, nodes: seq<Node>, bound: nat, made: Keys)
    requires Under(table, bound) && Grows(table, longer, 0)
    requires KeysMatch(table, longer, keys, made, nodes)
    requires forall q :: q in keys ==> keys[q] < bound
    ensures Under(longer, bound)
  {
    forall k | 0 <= k < |longer|
      ensures longer[k].parent < bound
    {
      if k < |table| {
        assert longer[..|table|][k] == table[k];
      } else {
        assert MadeFrom(longer[k], keys, nodes);
      }
    }
  }

  lemma SameChildren(nodes: seq<Node>, id: string, parent: Option<string>)
    ensures IsChild(ById(nodes), id, parent) == IsChild(nodes, id, parent)
  {
    ByIdKeepsTheLast(nodes);
  }

  /** A row made by a pass is the only one its key leads to. */
  lemma NewRowHasItsKey(table: seq<Row>, v: nat, keys: Keys, nodes: seq<Node>, k: nat)
    requires DistinctIds(nodes) && |table| <= k < |Attach(table, v, keys, nodes)|
    ensures OnlyKey(KeysOf(table, v, keys, nodes), Some(Attach(table, v, keys, nodes)[k].name), k)
  {
    AttachMatches(table, v, keys, nodes);
  }

  lemma NewCompetencyMatches(t: Tables, v: nat, file: File, m: nat)
    requires WellFormed(t)
    requires |t.competencies| <= m < |Materialised(t, v, file).competencies|
    ensures CompetencyMatches(Materialised(t, v, file), v, m, file.doc.nodes)
  {
    var nodes, longer := ById(file.doc.nodes), Materialised(t, v, file);
    ByIdKeepsTheLast(file.doc.nodes);
    var blocks := BlockKeys(t, v, nodes);
    AttachMatches(t.competencies, v, blocks, nodes);
    NewRowHasItsKey(t.competencies, v, blocks, nodes, m);
    var name := longer.competencies[m].name;
    assert MadeFrom(longer.competencies[m], blocks, nodes);
    FreshTally(t.topics, |t.competencies|, v, m);
    forall id
      ensures Tally(longer.topics, v, m, id) == Once(IsChild(file.doc.nodes, id, Some(name)))
    {
      AttachTally(t.topics, v, CompetencyKeys(t, v, nodes), nodes, m, Some(name), id);
      SameChildren(file.doc.nodes, id, Some(name));
    }
    forall l
      ensures LevelTally(longer.levels, v, m, l) == multiset(LastNamed(file.doc.nodes, name).value.levels)[l]
    {
      AttachLevelsTally(t.levels, v, t.competencies, blocks, nodes, m, l);
      CountNone(t.levels, LevelIs(v, m, l));
    }
  }

  lemma NewBlockMatches(t: Tables, v: nat, file: File, k: nat)
    requires WellFormed(t)
    requires |t.blocks| <= k < |Materialised(t, v, file).blocks|
    ensures BlockMatches(Materialised(t, v, file), v, k, file.doc.nodes)
  {
    var nodes, longer := ById(file.doc.nodes), Materialised(t, v, file);
    ByIdKeepsTheLast(file.doc.nodes);
    NewRowHasItsKey(t.blocks, v, RootKeys(t), nodes, k);
    var name := longer.blocks[k].name;
    FreshTally(t.competencies, |t.blocks|, v, k);
    forall id
      ensures Tally(longer.competencies, v, k, id) == Once(IsChild(file.doc.nodes, id, Some(name)))
    {
      AttachTally(t.competencies, v, BlockKeys(t, v, nodes), nodes, k, Some(name), id);
      SameChildren(file.doc.nodes, id, Some(name));
    }
    MaterialisedGrows(t, v, file);
    var rows := longer.competencies;
    forall m | 0 <= m < |rows| && rows[m].version == v && rows[m].parent == k
      ensures CompetencyMatches(longer, v, m, file.doc.nodes)
    {
      FreshParentIsNew(t.competencies, longer.competencies, |t.blocks|, m);
      NewCompetencyMatches(t, v, file, m);
    }
  }

  lemma NewStackMatches(t: Tables, v: nat, file: File)
    requires WellFormed(t)
    ensures StackMatches(Materialised(t, v, file), v, |t.stacks|, file.doc.nodes)
  {
    var nodes, longer := ById(file.doc.nodes), Materialised(t, v, file);
    ByIdKeepsTheLast(file.doc.nodes);
    FreshTally(t.blocks, |t.stacks|, v, |t.stacks|);
    forall id
      ensures Tally(longer.blocks, v, |t.stacks|, id) == Once(IsChild(file.doc.nodes, id, None))
    {
      AttachTally(t.blocks, v, RootKeys(t), nodes, |t.stacks|, None, id);
      SameChildren(file.doc.nodes, id, None);
    }
    MaterialisedGrows(t, v, file);
    forall k | 0 <= k < |longer.blocks| && longer.blocks[k].version == v && longer.blocks[k].parent == |t.stacks|
      ensures BlockMatches(longer, v, k, file.doc.nodes)
    {
      FreshParentIsNew(t.blocks, longer.blocks, |t.stacks|, k);
      NewBlockMatches(t, v, file, k);
    }
  }

  // ---------- all files ----------

  ghost predicate DistinctStems(files: seq<File>)
  {
    forall i, j :: 0 <= i < j < |files| ==> files[i].stem != files[j].stem
  }

  lemma {:induction false} DocOfMember(files: seq<File>, stem: string)
    ensures DocOf(files, stem).Some? <==> exists k :: 0 <= k < |files| && files[k].stem == stem
  {
    if files != [] {
      DocOfMember(Front(files), stem);
      assert Last(files) == files[|files| - 1];
      assert forall k :: 0 <= k < |Front(files)| ==> Front(files)[k] == files[k];
    }
  }

  lemma TreeGrows(t: Tables, v: nat, files: seq<File>, file: File)
    requires WellFormed(t) && TreeMatches(t, v, files) && DocOf(files, file.stem).None?
    ensures TreeMatches(Materialised(t, v, file), v, files + [file])
  {
    var longer, all := Materialised(t, v, file), files + [file];
    assert Front(all) == files;
    MaterialisedGrows(t, v, file);
    forall stem
      ensures Tally(longer.stacks, v, 0, stem) == Once(DocOf(all, stem).Some?)
    {
      TallyOneMore(t.stacks, Row(|t.stacks|, v, 0, file.stem), v, 0, stem);
    }
    forall i | 0 <= i < |longer.stacks| && longer.stacks[i].version == v
      ensures DocOf(all, longer.stacks[i].name).Some?
      ensures StackMatches(longer, v, i, DocOf(all, longer.stacks[i].name).value.nodes)
    {
      if i < |t.stacks| {
        assert longer.stacks[i] == t.stacks[i];
        StackStays(t, longer, v, i, DocOf(files, t.stacks[i].name).value.nodes);
      } else {
        NewStackMatches(t, v, file);
      }
    }
  }

  /** A version none of whose rows exist yet. */
  ghost predicate Unused(t: Tables, v: nat)
  {
    && (forall k :: 0 <= k < |t.stacks| ==> t.stacks[k].version != v)
    && (forall k :: 0 <= k < |t.blocks| ==> t.blocks[k].version != v)
    && (forall k :: 0 <= k < |t.competencies| ==> t.competencies[k].version != v)
    && (forall k :: 0 <= k < |t.topics| ==> t.topics[k].version != v)
    && (forall k :: 0 <= k < |t.levels| ==> t.levels[k].version != v)
  }

  /** Once every file is in, the rows of the new version are the forest of the files. */
  lemma {:induction false} AllFilesMatch(t: Tables, v: nat, files: seq<File>)
    requires WellFormed(t) && Unused(t, v) && DistinctStems(files)
    ensures WellFormed(AllMaterialised(t, v, files)) && TreeMatches(AllMaterialised(t, v, files), v, files)
  {
    if files == [] {
      forall stem
        ensures Tally(t.stacks, v, 0, stem) == 0
      {
        CountNone(t.stacks, RowIs(v, 0, stem));
      }
    } else {
      var front, file := Front(files), Last(files);
      AllFilesMatch(t, v, front);
      DocOfMember(front, file.stem);
      MaterialisedGrows(AllMaterialised(t, v, front), v, file);
      TreeGrows(AllMaterialised(t, v, front), v, front, file);
      assert front + [file] == files;
    }
  }

  // ---------- versions of parents ----------

  /** A child row and its parent row belong to one version. */
  ghost predicate SameVersions(upper: seq<Row>, lower: seq<Row>)
  {
    forall m :: 0 <= m < |lower| ==> lower[m].parent < |upper| && upper[lower[m].parent].version == lower[m].version
  }

  ghost predicate VersionsAgree(t: Tables)
  {
    SameVersions(t.stacks, t.blocks) && SameVersions(t.blocks, t.competencies)
  }

  lemma AttachAgrees(upper: seq<Row>, taller: seq<Row>, table: seq<Row>, v: nat, keys: Keys, nodes: seq<Node>)
    requires SameVersions(upper, table) && |upper| <= |taller| && taller[..|upper|] == upper
    requires DistinctIds(nodes)
    requires forall q :: q in keys ==> keys[q] < |taller| && taller[keys[q]].version == v
    ensures SameVersions(taller, Attach(table, v, keys, nodes))
  {
    var longer := Attach(table, v, keys, nodes);
    AttachGrows(table, v, keys, nodes, 0);
    AttachMatches(table, v, keys, nodes);
    forall m | 0 <= m < |longer|
      ensures longer[m].parent < |taller| && taller[longer[m].parent].version == longer[m].version
    {
      if m < |table| {
        assert longer[..|table|][m] == table[m];
        assert taller[..|upper|][table[m].parent] == upper[table[m].parent];
      } else {
        assert MadeFrom(longer[m], keys, nodes);
      }
    }
  }

  lemma FileAgrees(t: Tables, v: nat, file: File)
    requires WellFormed(t) && VersionsAgree(t)
    ensures VersionsAgree(Materialised(t, v, file))
  {
    var nodes, longer := ById(file.doc.nodes), Materialised(t, v, file);
    ByIdKeepsTheLast(file.doc.nodes);
    AttachGrows(t.blocks, v, RootKeys(t), nodes, 0);
    AttachMatches(t.blocks, v, RootKeys(t), nodes);
    AttachAgrees(t.stacks, longer.stacks, t.blocks, v, RootKeys(t), nodes);
    AttachAgrees(t.blocks, longer.blocks, t.competencies, v, BlockKeys(t, v, nodes), nodes);
  }

  lemma {:induction false} FilesAgree(t: Tables, v: nat, files: seq<File>)
    requires WellFormed(t) && VersionsAgree(t)
    ensures WellFormed(AllMaterialised(t, v, files)) && VersionsAgree(AllMaterialised(t, v, files))
  {
    if files != [] {
      FilesAgree(t, v, Front(files));
      MaterialisedGrows(AllMaterialised(t, v, Front(files)), v, Last(files));
      FileAgrees(AllMaterialised(t, v, Front(files)), v, Last(files));
    }
  }
}
