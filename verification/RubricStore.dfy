/** The rubric version store: app/backend/services/rubric_importer.py flattens a forest of
    YAML nodes into five tables under a fresh version, and
    app/backend/services/rubric_snapshot.py rebuilds the tree of a version by grouping. */
module RubricStore {
  import opened Common
  import opened Ordering

  // ---------- rubric documents ----------

  datatype LevelDoc = LevelDoc(rank: nat, descriptor: string)

  datatype Node = Node(id: string, parent: Option<string>, retired: bool, levels: seq<LevelDoc>)

  datatype Doc = Doc(retired: bool, nodes: seq<Node>)

  /** One YAML file; the file name without its suffix names the stack. */
  datatype File = File(stem: string, doc: Doc)

  /** A directory of files and the SHA-256 of their bytes. Nothing below needs the hash
      to tell directories apart. */
  datatype Payload = Payload(hash: string, files: seq<File>)

  // ---------- nodes by id ----------

  /** Assignment into a dict kept in order of first insertion. */
  function Put(nodes: seq<Node>, node: Node): seq<Node>
  {
    if nodes == [] then [node]
    else if Last(nodes).id == node.id then Front(nodes) + [node]
    else Put(Front(nodes), node) + [Last(nodes)]
  }

  /** The values of {n["id"]: n for n in nodes}. */
  function ById(nodes: seq<Node>): seq<Node>
  {
    if nodes == [] then [] else Put(ById(Front(nodes)), Last(nodes))
  }

  // ---------- tables ----------

  /** A row of stack, competency_block, competency or topic; the key of a row is its number
      in its table. A stack hangs off its version alone, and its parent is 0. The column
      competency_block.position keeps its default everywhere. */
  datatype Row = Row(id: nat, version: nat, parent: nat, name: string)

  datatype LevelRow = LevelRow(id: nat, version: nat, competency: nat, rank: nat, descriptor: string)

  datatype Version = Version(tag: string, hash: string)

  datatype Tables = Tables(
    stacks: seq<Row>,
    blocks: seq<Row>,
    competencies: seq<Row>,
    topics: seq<Row>,
    levels: seq<LevelRow>)

  datatype Database = Database(versions: seq<Version>, tables: Tables, audit: seq<string>)

  function TreeRows(t: Tables): nat
  {
    |t.stacks| + |t.blocks| + |t.competencies| + |t.topics| + |t.levels|
  }

  // ---------- flattening ----------

  type Keys = map<Option<string>, nat>

  /** One pass: a row for every node whose parent has a key. */
  function Attach(table: seq<Row>, version: nat, keys: Keys, nodes: seq<Node>): seq<Row>
  {
    if nodes == [] then table
    else
      var before := Attach(table, version, keys, Front(nodes));
      var node := Last(nodes);
      if node.parent in keys then before + [Row(|before|, version, keys[node.parent], node.id)] else before
  }

  /** The keys those rows get, by the id their children name. */
  function KeysOf(table: seq<Row>, version: nat, keys: Keys, nodes: seq<Node>): Keys
  {
    if nodes == [] then map[]
    else
      var node := Last(nodes);
      var before := KeysOf(table, version, keys, Front(nodes));
      if node.parent in keys then before[Some(node.id) := |Attach(table, version, keys, Front(nodes))|] else before
  }

  function AddLevels(levels: seq<LevelRow>, version: nat, competency: nat, docs: seq<LevelDoc>): seq<LevelRow>
  {
    if docs == [] then levels
    else
      var before := AddLevels(levels, version, competency, Front(docs));
      before + [LevelRow(|before|, version, competency, Last(docs).rank, Last(docs).descriptor)]
  }

  /** The levels of every node that becomes a competency. */
  function AttachLevels(levels: seq<LevelRow>, version: nat, table: seq<Row>, keys: Keys, nodes: seq<Node>)
    : seq<LevelRow>
  {
    if nodes == [] then levels
    else
      var before := AttachLevels(levels, version, table, keys, Front(nodes));
      var node := Last(nodes);
      if node.parent in keys
      then AddLevels(before, version, |Attach(table, version, keys, Front(nodes))|, node.levels)
      else before
  }

  /** One stack: its row, then blocks, competencies with their levels, and topics. Nodes
      deeper than that, or with an unknown parent, leave no row. */
  function Materialised(t: Tables, version: nat, file: File): Tables
  {
    var nodes, roots := ById(file.doc.nodes), map[None := |t.stacks|];
    var blocks := KeysOf(t.blocks, version, roots, nodes);
    var competencies := KeysOf(t.competencies, version, blocks, nodes);
    Tables(t.stacks + [Row(|t.stacks|, version, 0, file.stem)],
           Attach(t.blocks, version, roots, nodes),
           Attach(t.competencies, version, blocks, nodes),
           Attach(t.topics, version, competencies, nodes),
           AttachLevels(t.levels, version, t.competencies, blocks, nodes))
  }

  function AllMaterialised(t: Tables, version: nat, files: seq<File>): Tables
  {
    if files == [] then t else Materialised(AllMaterialised(t, version, Front(files)), version, Last(files))
  }

  // ---------- seeding ----------

  predicate IsBlockId(id: string)
  {
    |id| >= 6 && id[..6] == "block."
  }

  ghost predicate Declares(files: seq<File>, id: string)
  {
    exists f, k :: 0 <= f < |files| && 0 <= k < |files[f].doc.nodes| && files[f].doc.nodes[k].id == id
  }

  /** The competency names of the latest version. */
  ghost predicate IsPriorName(db: Database, id: string)
  {
    db.versions != []
    && exists k :: 0 <= k < |db.tables.competencies|
                   && db.tables.competencies[k].version == |db.versions| - 1
                   && db.tables.competencies[k].name == id
  }

  /** The importer takes this id for renamed: it is not among the new ids that do not start
      with "block.". */
  ghost predicate HasDisappeared(db: Database, files: seq<File>, id: string)
  {
    IsPriorName(db, id) && !(Declares(files, id) && !IsBlockId(id))
  }

  datatype SeedResult =
    | Noop
    | RenameForbidden(ids: set<string>)
    | DryRun
    | HashTaken
    | Created(version: nat, rows: nat)

  predicate IsLatest(db: Database, hash: string)
  {
    db.versions != [] && Last(db.versions).hash == hash
  }

  predicate IsKnown(db: Database, hash: string)
  {
    exists k :: 0 <= k < |db.versions| && db.versions[k].hash == hash
  }

  function Label(hash: string): string
  {
    "tree:" + if |hash| <= 8 then hash else hash[..8]
  }

  /** The database after a version is created. */
  function WithVersion(db: Database, p: Payload): Database
  {
    Database(db.versions + [Version(Label(p.hash), p.hash)],
             AllMaterialised(db.tables, |db.versions|, p.files),
             db.audit + [p.hash])
  }

  /** What `seed` answers and leaves, in the order in which it decides. */
  ghost predicate Seeded(db: Database, p: Payload, dryRun: bool, db': Database, r: SeedResult)
  {
    if IsLatest(db, p.hash) then r == Noop && db' == db
    else if exists id :: HasDisappeared(db, p.files, id) then
      r.RenameForbidden? && (forall id :: id in r.ids <==> HasDisappeared(db, p.files, id)) && db' == db
    else if dryRun then r == DryRun && db' == db
    else if IsKnown(db, p.hash) then r == HashTaken && db' == db
    else
      && db' == WithVersion(db, p)
      && r.Created? && r.version == |db.versions|
      && r.rows == TreeRows(db'.tables) - TreeRows(db.tables) + 2
  }

  // ---------- snapshots ----------

  datatype SnapTopic = SnapTopic(id: nat, name: string)

  datatype SnapLevel = SnapLevel(id: nat, rank: nat, descriptor: string)

  datatype SnapCompetency = SnapCompetency(id: nat, name: string, topics: seq<SnapTopic>, levels: seq<SnapLevel>)

  datatype SnapBlock = SnapBlock(id: nat, name: string, competencies: seq<SnapCompetency>)

  datatype SnapStack = SnapStack(id: nat, name: string, blocks: seq<SnapBlock>)

  datatype Snapshot = Snapshot(version: nat, tag: string, stacks: seq<SnapStack>)

  predicate RowBefore(a: Row, b: Row)
  {
    if a.name == b.name then a.id <= b.id else Before(a.name, b.name)
  }

  predicate LevelBefore(a: LevelRow, b: LevelRow)
  {
    if a.rank == b.rank then a.id <= b.id else a.rank <= b.rank
  }

  function OfVersion(version: nat): Row -> bool { (r: Row) => r.version == version }

  function LevelOfVersion(version: nat): LevelRow -> bool { (r: LevelRow) => r.version == version }

  /** SELECT ... WHERE rubric_tree_version_id = v ORDER BY name, id. */
  function RowsOf(table: seq<Row>, version: nat): seq<Row>
  {
    Sorted(Filter(table, OfVersion(version)), RowBefore)
  }

  function LevelsOf(table: seq<LevelRow>, version: nat): seq<LevelRow>
  {
    Sorted(Filter(table, LevelOfVersion(version)), LevelBefore)
  }

  /** The rows of one version in query order. */
  datatype Selected = Selected(
    stacks: seq<Row>,
    blocks: seq<Row>,
    competencies: seq<Row>,
    topics: seq<Row>,
    levels: seq<LevelRow>)

  function Select(t: Tables, version: nat): Selected
  {
    Selected(RowsOf(t.stacks, version), RowsOf(t.blocks, version), RowsOf(t.competencies, version),
             RowsOf(t.topics, version), LevelsOf(t.levels, version))
  }

  function LevelsUnder(rows: seq<LevelRow>, competency: nat): seq<SnapLevel>
  {
    if rows == [] then []
    else
      LevelsUnder(Front(rows), competency)
      + (if Last(rows).competency == competency
         then [SnapLevel(Last(rows).id, Last(rows).rank, Last(rows).descriptor)] else [])
  }

  function TopicsUnder(rows: seq<Row>, parent: nat): seq<SnapTopic>
  {
    if rows == [] then []
    else
      TopicsUnder(Front(rows), parent)
      + (if Last(rows).parent == parent then [SnapTopic(Last(rows).id, Last(rows).name)] else [])
  }

  function CompetencyOf(r: Row, s: Selected): SnapCompetency
  {
    SnapCompetency(r.id, r.name, TopicsUnder(s.topics, r.id), LevelsUnder(s.levels, r.id))
  }

  function CompetenciesUnder(rows: seq<Row>, s: Selected, parent: nat): seq<SnapCompetency>
  {
    if rows == [] then []
    else
      CompetenciesUnder(Front(rows), s, parent)
      + (if Last(rows).parent == parent then [CompetencyOf(Last(rows), s)] else [])
  }

  function BlockOf(r: Row, s: Selected): SnapBlock
  {
    SnapBlock(r.id, r.name, CompetenciesUnder(s.competencies, s, r.id))
  }

  function BlocksUnder(rows: seq<Row>, s: Selected, parent: nat): seq<SnapBlock>
  {
    if rows == [] then []
    else
      BlocksUnder(Front(rows), s, parent)
      + (if Last(rows).parent == parent then [BlockOf(Last(rows), s)] else [])
  }

  function StackOf(r: Row, s: Selected): SnapStack
  {
    SnapStack(r.id, r.name, BlocksUnder(s.blocks, s, r.id))
  }

  function StacksOf(rows: seq<Row>, s: Selected): seq<SnapStack>
  {
    if rows == [] then [] else StacksOf(Front(rows), s) + [StackOf(Last(rows), s)]
  }

  /** None: RubricSnapshotError, there is no such version. */
  function SnapshotOf(db: Database, version: nat): Option<Snapshot>
  {
    if version >= |db.versions| then None
    else
      var s := Select(db.tables, version);
      Some(Snapshot(version, db.versions[version].tag, StacksOf(s.stacks, s)))
  }

  // ---------- the store as the program runs it ----------

  class Store {
    var versions: seq<Version>
    var stacks: seq<Row>
    var blocks: seq<Row>
    var competencies: seq<Row>
    var topics: seq<Row>
    var levels: seq<LevelRow>
    var audit: seq<string>

    function Trees(): Tables
      reads this
    {
      Tables(stacks, blocks, competencies, topics, levels)
    }

    function View(): Database
      reads this
    {
      Database(versions, Trees(), audit)
    }

    constructor ()
      ensures View() == Database([], Tables([], [], [], [], []), [])
    {
      versions, stacks, blocks, competencies, topics, levels, audit := [], [], [], [], [], [], [];
    }

    method InsertLevels(version: nat, competency: nat, docs: seq<LevelDoc>) returns (inserted: nat)
      modifies this`levels
      ensures levels == AddLevels(old(levels), version, competency, docs)
      ensures inserted == |docs|
    {
      inserted := 0;
      for k := 0 to |docs|
        invariant levels == AddLevels(old(levels), version, competency, docs[..k])
        invariant inserted == k
      {
        assert Front(docs[..k + 1]) == docs[..k];
        levels := levels + [LevelRow(|levels|, version, competency, docs[k].rank, docs[k].descriptor)];
        inserted := inserted + 1;
      }
      assert docs[..|docs|] == docs;
    }

    /** Pass 1: nodes without a parent. */
    method InsertBlocks(version: nat, stack: nat, nodes: seq<Node>) returns (blockIds: Keys, inserted: nat)
      modifies this`blocks
      ensures blocks == Attach(old(blocks), version, map[None := stack], nodes)
      ensures blockIds == KeysOf(old(blocks), version, map[None := stack], nodes)
      ensures inserted == |blocks| - |old(blocks)|
    {
      ghost var roots: Keys := map[None := stack];
      blockIds, inserted := map[], 0;
      for k := 0 to |nodes|
        invariant blocks == Attach(old(blocks), version, roots, nodes[..k])
        invariant blockIds == KeysOf(old(blocks), version, roots, nodes[..k])
        invariant inserted == |blocks| - |old(blocks)|
      {
        assert Front(nodes[..k + 1]) == nodes[..k];
        if nodes[k].parent.None? {
          blockIds := blockIds[Some(nodes[k].id) := |blocks|];
          blocks := blocks + [Row(|blocks|, version, stack, nodes[k].id)];
          inserted := inserted + 1;
        }
      }
      assert nodes[..|nodes|] == nodes;
    }

    /** Pass 2: children of a block, with their levels. */
    method InsertCompetencies(version: nat, blockIds: Keys, nodes: seq<Node>)
      returns (competencyIds: Keys, inserted: nat)
      modifies this`competencies, this`levels
      ensures competencies == Attach(old(competencies), version, blockIds, nodes)
      ensures levels == AttachLevels(old(levels), version, old(competencies), blockIds, nodes)
      ensures competencyIds == KeysOf(old(competencies), version, blockIds, nodes)
      ensures inserted == |competencies| - |old(competencies)| + (|levels| - |old(levels)|)
    {
      competencyIds, inserted := map[], 0;
      for k := 0 to |nodes|
        invariant competencies == Attach(old(competencies), version, blockIds, nodes[..k])
        invariant levels == AttachLevels(old(levels), version, old(competencies), blockIds, nodes[..k])
        invariant competencyIds == KeysOf(old(competencies), version, blockIds, nodes[..k])
        invariant inserted == |competencies| - |old(competencies)| + (|levels| - |old(levels)|)
      {
        assert Front(nodes[..k + 1]) == nodes[..k];
        if nodes[k].parent in blockIds {
          var row := |competencies|;
          competencies := competencies + [Row(row, version, blockIds[nodes[k].parent], nodes[k].id)];
          competencyIds := competencyIds[Some(nodes[k].id) := row];
          AddLevelsSize(levels, version, row, nodes[k].levels);
          var more := InsertLevels(version, row, nodes[k].levels);
          inserted := inserted + 1 + more;
        }
      }
      assert nodes[..|nodes|] == nodes;
    }

    /** Pass 3: children of a competency. */
    method InsertTopics(version: nat, competencyIds: Keys, nodes: seq<Node>) returns (inserted: nat)
      modifies this`topics
      ensures topics == Attach(old(topics), version, competencyIds, nodes)
      ensures inserted == |topics| - |old(topics)|
    {
      inserted := 0;
      for k := 0 to |nodes|
        invariant topics == Attach(old(topics), version, competencyIds, nodes[..k])
        invariant inserted == |topics| - |old(topics)|
      {
        assert Front(nodes[..k + 1]) == nodes[..k];
        if nodes[k].parent in competencyIds {
          topics := topics + [Row(|topics|, version, competencyIds[nodes[k].parent], nodes[k].id)];
          inserted := inserted + 1;
        }
      }
      assert nodes[..|nodes|] == nodes;
    }

    method MaterialiseStack(version: nat, file: File) returns (inserted: nat)
      modifies this`stacks, this`blocks, this`competencies, this`topics, this`levels
      ensures Trees() == Materialised(old(Trees()), version, file)
      ensures inserted == TreeRows(Trees()) - TreeRows(old(Trees()))
    {
      var stack := |stacks|;
      stacks := stacks + [Row(stack, version, 0, file.stem)];
      var nodes := ById(file.doc.nodes);
      var blockIds, first := InsertBlocks(version, stack, nodes);
      var competencyIds, second := InsertCompetencies(version, blockIds, nodes);
      var third := InsertTopics(version, competencyIds, nodes);
      inserted := 1 + first + second + third;
    }

    /** The ids of the latest version that the new files no longer declare. */
    method Disappeared(files: seq<File>) returns (ids: set<string>)
      ensures forall id :: id in ids <==> HasDisappeared(View(), files, id)
    {
      var prior: set<string> := {};
      if versions != [] {
        for k := 0 to |competencies|
          invariant forall id :: id in prior <==>
                                   exists j :: 0 <= j < k && competencies[j].version == |versions| - 1
                                               && competencies[j].name == id
        {
          if competencies[k].version == |versions| - 1 {
            prior := prior + {competencies[k].name};
          }
        }
      }
      var declared := DeclaredIds(files);
      ids := prior - declared;
    }

    method DeclaredIds(files: seq<File>) returns (ids: set<string>)
      ensures forall id :: id in ids <==> Declares(files, id) && !IsBlockId(id)
    {
      ids := {};
      for f := 0 to |files|
        invariant forall id :: id in ids <==> Declares(files[..f], id) && !IsBlockId(id)
      {
        var nodes := files[f].doc.nodes;
        ghost var before := ids;
        for k := 0 to |nodes|
          invariant forall id :: id in ids <==>
                                   id in before || (!IsBlockId(id) && exists j :: 0 <= j < k && nodes[j].id == id)
        {
          if !IsBlockId(nodes[k].id) {
            ids := ids + {nodes[k].id};
          }
        }
        DeclaresOneMore(files[..f], files[f]);
        assert files[..f + 1] == files[..f] + [files[f]];
      }
      assert files[..|files|] == files;
    }

    method Seed(p: Payload, dryRun: bool) returns (r: SeedResult)
      modifies this
      ensures Seeded(old(View()), p, dryRun, View(), r)
    {
      if IsLatest(View(), p.hash) {
        return Noop;
      }
      var gone := Disappeared(p.files);
      if gone != {} {
        ghost var id :| id in gone;
        assert HasDisappeared(View(), p.files, id);
        return RenameForbidden(gone);
      }
      assert forall id :: HasDisappeared(View(), p.files, id) ==> id in gone;
      if dryRun {
        return DryRun;
      }
      if exists k :: 0 <= k < |versions| && versions[k].hash == p.hash {
        return HashTaken;
      }
      r := CreateVersion(p);
    }

    /** The inserts of one transaction: the version, its trees, the audit row. */
    method CreateVersion(p: Payload) returns (r: SeedResult)
      modifies this
      ensures View() == WithVersion(old(View()), p)
      ensures r.Created? && r.version == |old(versions)|
      ensures r.rows == TreeRows(Trees()) - TreeRows(old(Trees())) + 2
    {
      var version := |versions|;
      versions := versions + [Version(Label(p.hash), p.hash)];
      var inserted: nat := 1;
      for f := 0 to |p.files|
        invariant Trees() == AllMaterialised(old(Trees()), version, p.files[..f])
        invariant versions == old(versions) + [Version(Label(p.hash), p.hash)] && audit == old(audit)
        invariant inserted == TreeRows(Trees()) - TreeRows(old(Trees())) + 1
      {
        assert Front(p.files[..f + 1]) == p.files[..f];
        var more := MaterialiseStack(version, p.files[f]);
        inserted := inserted + more;
      }
      assert p.files[..|p.files|] == p.files;
      audit := audit + [p.hash];
      r := Created(version, inserted + 1);
    }

    /** snapshot_rubric: four groupings, children before parents. */
    method TakeSnapshot(version: nat) returns (snapshot: Option<Snapshot>)
      ensures snapshot == SnapshotOf(View(), version)
    {
      if version >= |versions| {
        return None;
      }
      var s := Select(Trees(), version);
      var topicsBy := GroupTopics(s.topics);
      var levelsBy := GroupLevels(s.levels);
      var competenciesBy := GroupCompetencies(s, topicsBy, levelsBy);
      var blocksBy := GroupBlocks(s, competenciesBy);
      var trees := [];
      for k := 0 to |s.stacks|
        invariant trees == StacksOf(s.stacks[..k], s)
      {
        var r := s.stacks[k];
        assert Front(s.stacks[..k + 1]) == s.stacks[..k];
        trees := trees + [SnapStack(r.id, r.name, At(blocksBy, r.id))];
      }
      assert s.stacks[..|s.stacks|] == s.stacks;
      snapshot := Some(Snapshot(version, versions[version].tag, trees));
    }
  }

  method GroupTopics(rows: seq<Row>) returns (groups: map<nat, seq<SnapTopic>>)
    ensures forall c :: At(groups, c) == TopicsUnder(rows, c)
  {
    groups := map[];
    for k := 0 to |rows|
      invariant forall c :: At(groups, c) == TopicsUnder(rows[..k], c)
    {
      var r := rows[k];
      assert Front(rows[..k + 1]) == rows[..k];
      AtUpdated(groups, r.parent, At(groups, r.parent) + [SnapTopic(r.id, r.name)]);
      groups := groups[r.parent := At(groups, r.parent) + [SnapTopic(r.id, r.name)]];
    }
    assert rows[..|rows|] == rows;
  }

  method GroupLevels(rows: seq<LevelRow>) returns (groups: map<nat, seq<SnapLevel>>)
    ensures forall c :: At(groups, c) == LevelsUnder(rows, c)
  {
    groups := map[];
    for k := 0 to |rows|
      invariant forall c :: At(groups, c) == LevelsUnder(rows[..k], c)
    {
      var r := rows[k];
      assert Front(rows[..k + 1]) == rows[..k];
      AtUpdated(groups, r.competency, At(groups, r.competency) + [SnapLevel(r.id, r.rank, r.descriptor)]);
      groups := groups[r.competency := At(groups, r.competency) + [SnapLevel(r.id, r.rank, r.descriptor)]];
    }
    assert rows[..|rows|] == rows;
  }

  method GroupCompetencies(s: Selected, topicsBy: map<nat, seq<SnapTopic>>, levelsBy: map<nat, seq<SnapLevel>>)
    returns (groups: map<nat, seq<SnapCompetency>>)
    requires forall c :: At(topicsBy, c) == TopicsUnder(s.topics, c)
    requires forall c :: At(levelsBy, c) == LevelsUnder(s.levels, c)
    ensures forall b :: At(groups, b) == CompetenciesUnder(s.competencies, s, b)
  {
    var rows := s.competencies;
    groups := map[];
    for k := 0 to |rows|
      invariant forall b :: At(groups, b) == CompetenciesUnder(rows[..k], s, b)
    {
      var r := rows[k];
      assert Front(rows[..k + 1]) == rows[..k];
      var snap := SnapCompetency(r.id, r.name, At(topicsBy, r.id), At(levelsBy, r.id));
      AtUpdated(groups, r.parent, At(groups, r.parent) + [snap]);
      groups := groups[r.parent := At(groups, r.parent) + [snap]];
    }
    assert rows[..|rows|] == rows;
  }

  method GroupBlocks(s: Selected, competenciesBy: map<nat, seq<SnapCompetency>>)
    returns (groups: map<nat, seq<SnapBlock>>)
    requires forall b :: At(competenciesBy, b) == CompetenciesUnder(s.competencies, s, b)
    ensures forall p :: At(groups, p) == BlocksUnder(s.blocks, s, p)
  {
    var rows := s.blocks;
    groups := map[];
    for k := 0 to |rows|
      invariant forall p :: At(groups, p) == BlocksUnder(rows[..k], s, p)
    {
      var r := rows[k];
      assert Front(rows[..k + 1]) == rows[..k];
      var snap := SnapBlock(r.id, r.name, At(competenciesBy, r.id));
      AtUpdated(groups, r.parent, At(groups, r.parent) + [snap]);
      groups := groups[r.parent := At(groups, r.parent) + [snap]];
    }
    assert rows[..|rows|] == rows;
  }

  /** Reading a defaultdict of lists. */
  function At<T>(groups: map<nat, seq<T>>, key: nat): seq<T>
  {
    if key in groups then groups[key] else []
  }

  lemma AtUpdated<T>(groups: map<nat, seq<T>>, key: nat, value: seq<T>)
    ensures forall k: nat :: At(groups[key := value], k) == if k == key then value else At(groups, k)
  {
    var after := groups[key := value];
    forall k: nat
      ensures At(after, k) == if k == key then value else At(groups, k)
    {
      assert k in after <==> k == key || k in groups;
    }
  }

  lemma {:induction false} AddLevelsSize(levels: seq<LevelRow>, version: nat, competency: nat, docs: seq<LevelDoc>)
    ensures |AddLevels(levels, version, competency, docs)| == |levels| + |docs|
  {
    if docs != [] {
      AddLevelsSize(levels, version, competency, Front(docs));
    }
  }

  lemma DeclaresOneMore(files: seq<File>, file: File)
    ensures forall id :: Declares(files + [file], id) <==>
                           Declares(files, id) || exists k :: 0 <= k < |file.doc.nodes| && file.doc.nodes[k].id == id
  {
    var all := files + [file];
    forall id
      ensures Declares(all, id) <==>
              Declares(files, id) || exists k :: 0 <= k < |file.doc.nodes| && file.doc.nodes[k].id == id
    {
      if Declares(files, id) {
        var f, k :| 0 <= f < |files| && 0 <= k < |files[f].doc.nodes| && files[f].doc.nodes[k].id == id;
        assert all[f] == files[f];
      }
      assert all[|files|] == file;
    }
  }
}
