/** What a snapshot says about the documents it came from, over any history of seeds. */
module RubricHistory {
  import opened Common
  import opened Ordering
  import opened RubricStore
  import opened RubricTables
  import opened RubricRoundTrip

  // ---------- a snapshot of a forest ----------

  function TopicNames(s: seq<SnapTopic>): seq<string> { seq(|s|, i requires 0 <= i < |s| => s[i].name) }

  function CompetencyNames(s: seq<SnapCompetency>): seq<string> { seq(|s|, i requires 0 <= i < |s| => s[i].name) }

  function BlockNames(s: seq<SnapBlock>): seq<string> { seq(|s|, i requires 0 <= i < |s| => s[i].name) }

  function StackNames(s: seq<SnapStack>): seq<string> { seq(|s|, i requires 0 <= i < |s| => s[i].name) }

  function LevelDocs(s: seq<SnapLevel>): seq<LevelDoc>
  {
    seq(|s|, i requires 0 <= i < |s| => LevelDoc(s[i].rank, s[i].descriptor))
  }

  /** In order, the ids that the document puts under `parent`, each once, and no other. */
  ghost predicate ListsChildren(names: seq<string>, nodes: seq<Node>, parent: Option<string>)
  {
    InOrder(names, Before) && forall id :: multiset(names)[id] == Once(IsChild(nodes, id, parent))
  }

  ghost predicate RanksInOrder(levels: seq<SnapLevel>)
  {
    forall i, j :: 0 <= i < j < |levels| ==> levels[i].rank <= levels[j].rank
  }

  ghost predicate CompetencySound(c: SnapCompetency, nodes: seq<Node>)
  {
    && ListsChildren(TopicNames(c.topics), nodes, Some(c.name))
    && LastNamed(nodes, c.name).Some?
    && multiset(LevelDocs(c.levels)) == multiset(LastNamed(nodes, c.name).value.levels)
    && RanksInOrder(c.levels)
  }

  ghost predicate BlockSound(b: SnapBlock, nodes: seq<Node>)
  {
    && ListsChildren(CompetencyNames(b.competencies), nodes, Some(b.name))
    && (forall i :: 0 <= i < |b.competencies| ==> CompetencySound(b.competencies[i], nodes))
  }

  ghost predicate StackSound(s: SnapStack, nodes: seq<Node>)
  {
    && ListsChildren(BlockNames(s.blocks), nodes, None)
    && (forall i :: 0 <= i < |s.blocks| ==> BlockSound(s.blocks[i], nodes))
  }

  /** One stack for every file, in order, each the file's forest to depth three. */
  ghost predicate SnapshotSound(s: Snapshot, files: seq<File>)
  {
    && InOrder(StackNames(s.stacks), Before)
    && (forall stem :: multiset(StackNames(s.stacks))[stem] == Once(DocOf(files, stem).Some?))
    && (forall i :: 0 <= i < |s.stacks| ==>
          DocOf(files, s.stacks[i].name).Some? && StackSound(s.stacks[i], DocOf(files, s.stacks[i].name).value.nodes))
  }

  // ---------- queries ----------

  lemma RowOrderIsTotal()
    ensures TotalOrder(RowBefore)
  {
    forall a: Row, b: Row
      ensures RowBefore(a, b) || RowBefore(b, a)
    {
      BeforeIsTotal(a.name, b.name);
    }
    forall a: Row, b: Row, c: Row | RowBefore(a, b) && RowBefore(b, c)
      ensures RowBefore(a, c)
    {
      BeforeIsTotal(a.name, b.name);
      BeforeIsTotal(b.name, c.name);
      BeforeIsTotal(a.name, c.name);
      if a.name != b.name && b.name != c.name {
        BeforeIsTransitive(a.name, b.name, c.name);
      }
    }
  }

  lemma LevelOrderIsTotal()
    ensures TotalOrder(LevelBefore)
  {
  }

  lemma {:induction false} CountFilter<T>(s: seq<T>, keep: T -> bool, p: T -> bool)
    requires forall x :: p(x) ==> keep(x)
    ensures Count(Filter(s, keep), p) == Count(s, p)
  {
    if s != [] {
      CountFilter(Front(s), keep, p);
      var before := Filter(Front(s), keep);
      assert Front(before + [Last(s)]) == before;
      assert before + [] == before;
    }
  }

  /** A query returns exactly the rows of the version, in order. */
  lemma QueryReturns(table: seq<Row>, v: nat)
    ensures InOrder(RowsOf(table, v), RowBefore)
    ensures forall p, id :: Tally(RowsOf(table, v), v, p, id) == Tally(table, v, p, id)
    ensures forall r :: r in RowsOf(table, v) <==> r in table && r.version == v
  {
    var keep := OfVersion(v);
    var kept := Filter(table, keep);
    RowOrderIsTotal();
    SortedSorts(kept, RowBefore);
    forall p, id
      ensures Tally(RowsOf(table, v), v, p, id) == Tally(table, v, p, id)
    {
      SortedCounts(kept, RowBefore, RowIs(v, p, id));
      CountFilter(table, keep, RowIs(v, p, id));
    }
    forall r
      ensures r in RowsOf(table, v) <==> r in table && r.version == v
    {
      assert r in RowsOf(table, v) <==> r in multiset(RowsOf(table, v));
      FilterMember(table, keep, r);
    }
  }

  /** The rows of one group of a query. */
  function Group(rows: seq<Row>, parent: nat): seq<Row>
  {
    if rows == [] then []
    else Group(Front(rows), parent) + (if Last(rows).parent == parent then [Last(rows)] else [])
  }

  function RowNames(rows: seq<Row>): seq<string> { seq(|rows|, i requires 0 <= i < |rows| => rows[i].name) }

  lemma {:induction false} GroupIsInOrder(rows: seq<Row>, parent: nat)
    requires InOrder(rows, RowBefore)
    ensures InOrder(Group(rows, parent), RowBefore)
    ensures forall r :: r in Group(rows, parent) ==> r in rows && r.parent == parent
  {
    if rows != [] {
      var front, row := Front(rows), Last(rows);
      GroupIsInOrder(front, parent);
      var before := Group(front, parent);
      forall i | 0 <= i < |before|
        ensures RowBefore(before[i], row)
      {
        assert before[i] in front;
        var k :| 0 <= k < |front| && front[k] == before[i];
        assert RowBefore(rows[k], rows[|rows| - 1]);
      }
    }
  }

  lemma {:induction false} GroupIsComplete(rows: seq<Row>, v: nat, parent: nat, id: string)
    requires forall k :: 0 <= k < |rows| ==> rows[k].version == v
    ensures multiset(RowNames(Group(rows, parent)))[id] == Tally(rows, v, parent, id)
  {
    if rows == [] {
      assert RowNames(Group(rows, parent)) == [];
    } else {
      var front, row := Front(rows), Last(rows);
      assert rows == front + [row] && row == rows[|rows| - 1];
      GroupIsComplete(front, v, parent, id);
      TallyOneMore(front, row, v, parent, id);
      var before := Group(front, parent);
      if row.parent == parent {
        assert RowNames(before + [row]) == RowNames(before) + [row.name];
      } else {
        assert before + [] == before;
      }
    }
  }

  lemma GroupHolds(rows: seq<Row>, v: nat, parent: nat)
    requires InOrder(rows, RowBefore) && forall r :: r in rows ==> r.version == v
    ensures var g := Group(rows, parent);
      && InOrder(g, RowBefore)
      && (forall r :: r in g ==> r in rows && r.parent == parent)
      && (forall id :: multiset(RowNames(g))[id] == Tally(rows, v, parent, id))
  {
    GroupIsInOrder(rows, parent);
    forall id
      ensures multiset(RowNames(Group(rows, parent)))[id] == Tally(rows, v, parent, id)
    {
      GroupIsComplete(rows, v, parent, id);
    }
  }

  lemma OrderOfNames(rows: seq<Row>)
    requires InOrder(rows, RowBefore)
    ensures InOrder(RowNames(rows), Before)
  {
    forall i, j | 0 <= i < j < |rows|
      ensures Before(rows[i].name, rows[j].name)
    {
      assert RowBefore(rows[i], rows[j]);
      BeforeIsTotal(rows[i].name, rows[j].name);
    }
  }

  /** The children of a row as a snapshot groups them: their names in order, each as often
      as the table has it. */
  lemma GroupedChildren(table: seq<Row>, v: nat, parent: nat)
    ensures var g := Group(RowsOf(table, v), parent);
      && InOrder(RowNames(g), Before)
      && (forall id :: multiset(RowNames(g))[id] == Tally(table, v, parent, id))
      && (forall r :: r in g ==> r in table && r.version == v && r.parent == parent)
  {
    QueryReturns(table, v);
    GroupHolds(RowsOf(table, v), v, parent);
    OrderOfNames(Group(RowsOf(table, v), parent));
  }

  lemma {:induction false} TopicsAreGrouped(rows: seq<Row>, parent: nat)
    ensures
      var t, g := TopicsUnder(rows, parent), Group(rows, parent);
      && |t| == |g| && TopicNames(t) == RowNames(g)
      && (forall i :: 0 <= i < |g| ==> t[i] == SnapTopic(g[i].id, g[i].name))
  {
    if rows != [] {
      TopicsAreGrouped(Front(rows), parent);
    }
  }

  lemma {:induction false} CompetenciesAreGrouped(rows: seq<Row>, s: Selected, parent: nat)
    ensures
      var c, g := CompetenciesUnder(rows, s, parent), Group(rows, parent);
      && |c| == |g| && CompetencyNames(c) == RowNames(g)
      && (forall i :: 0 <= i < |g| ==> c[i] == CompetencyOf(g[i], s))
  {
    if rows != [] {
      CompetenciesAreGrouped(Front(rows), s, parent);
    }
  }

  lemma {:induction false} BlocksAreGrouped(rows: seq<Row>, s: Selected, parent: nat)
    ensures
      var b, g := BlocksUnder(rows, s, parent), Group(rows, parent);
      && |b| == |g| && BlockNames(b) == RowNames(g)
      && (forall i :: 0 <= i < |g| ==> b[i] == BlockOf(g[i], s))
  {
    if rows != [] {
      BlocksAreGrouped(Front(rows), s, parent);
    }
  }

  lemma {:induction false} StacksAreMapped(rows: seq<Row>, s: Selected)
    ensures
      var t := StacksOf(rows, s);
      |t| == |rows| && StackNames(t) == RowNames(rows) && forall i :: 0 <= i < |rows| ==> t[i] == StackOf(rows[i], s)
  {
    if rows != [] {
      StacksAreMapped(Front(rows), s);
    }
  }

  // ---------- levels ----------

  lemma {:induction false} LevelGroupIsRanked(rows: seq<LevelRow>, c: nat)
    requires InOrder(rows, LevelBefore)
    ensures var g := LevelsUnder(rows, c);
      && RanksInOrder(g)
      && (forall i :: 0 <= i < |g| ==> exists k :: 0 <= k < |rows| && rows[k].rank == g[i].rank)
  {
    if rows != [] {
      var front, row := Front(rows), Last(rows);
      LevelGroupIsRanked(front, c);
      var before, g := LevelsUnder(front, c), LevelsUnder(rows, c);
      forall i | 0 <= i < |before|
        ensures before[i].rank <= row.rank
        ensures exists k :: 0 <= k < |rows| && rows[k].rank == before[i].rank
      {
        var k :| 0 <= k < |front| && front[k].rank == before[i].rank;
        assert rows[k] == front[k] && LevelBefore(rows[k], rows[|rows| - 1]);
      }
    }
  }

  lemma {:induction false} LevelGroupIsComplete(rows: seq<LevelRow>, v: nat, c: nat, l: LevelDoc)
    requires forall r :: r in rows ==> r.version == v
    ensures multiset(LevelDocs(LevelsUnder(rows, c)))[l] == LevelTally(rows, v, c, l)
  {
    if rows == [] {
      assert LevelDocs(LevelsUnder(rows, c)) == [];
    } else {
      var front, row := Front(rows), Last(rows);
      assert rows == front + [row];
      LevelGroupIsComplete(front, v, c, l);
      var before := LevelsUnder(front, c);
      assert LevelIs(v, c, l)(row) <==> row.competency == c && LevelDoc(row.rank, row.descriptor) == l;
      if row.competency == c {
        var snap := SnapLevel(row.id, row.rank, row.descriptor);
        assert LevelDocs(before + [snap]) == LevelDocs(before) + [LevelDoc(row.rank, row.descriptor)];
      } else {
        assert before + [] == before;
      }
    }
  }

  lemma GroupedLevels(levels: seq<LevelRow>, v: nat, c: nat)
    ensures var g := LevelsUnder(LevelsOf(levels, v), c);
      RanksInOrder(g) && forall l :: multiset(LevelDocs(g))[l] == LevelTally(levels, v, c, l)
  {
    var keep := LevelOfVersion(v);
    var kept, rows := Filter(levels, keep), LevelsOf(levels, v);
    LevelOrderIsTotal();
    SortedSorts(kept, LevelBefore);
    forall r | r in rows
      ensures r.version == v
    {
      assert r in multiset(rows);
      FilterMember(levels, keep, r);
    }
    LevelGroupIsRanked(rows, c);
    forall l
      ensures multiset(LevelDocs(LevelsUnder(rows, c)))[l] == LevelTally(levels, v, c, l)
    {
      LevelGroupIsComplete(rows, v, c, l);
      SortedCounts(kept, LevelBefore, LevelIs(v, c, l));
      CountFilter(levels, keep, LevelIs(v, c, l));
    }
  }

  // ---------- the snapshot of matching tables ----------

  lemma CompetencyIsSound(t: Tables, v: nat, r: Row, nodes: seq<Node>)
    requires Numbered(t.competencies) && r in t.competencies && CompetencyMatches(t, v, r.id, nodes)
    ensures CompetencySound(CompetencyOf(r, Select(t, v)), nodes)
  {
    var s := Select(t, v);
    TopicsAreGrouped(s.topics, r.id);
    GroupedChildren(t.topics, v, r.id);
    GroupedLevels(t.levels, v, r.id);
  }

  lemma BlockIsSound(t: Tables, v: nat, r: Row, nodes: seq<Node>)
    requires WellFormed(t) && r in t.blocks && BlockMatches(t, v, r.id, nodes)
    ensures BlockSound(BlockOf(r, Select(t, v)), nodes)
  {
    var s := Select(t, v);
    var g := Group(s.competencies, r.id);
    CompetenciesAreGrouped(s.competencies, s, r.id);
    GroupedChildren(t.competencies, v, r.id);
    forall i | 0 <= i < |g|
      ensures CompetencySound(CompetencyOf(g[i], s), nodes)
    {
      assert g[i] in g;
      assert CompetencyMatches(t, v, g[i].id, nodes);
      CompetencyIsSound(t, v, g[i], nodes);
    }
  }

  lemma StackIsSound(t: Tables, v: nat, r: Row, nodes: seq<Node>)
    requires WellFormed(t) && StackMatches(t, v, r.id, nodes)
    ensures StackSound(StackOf(r, Select(t, v)), nodes)
  {
    var s := Select(t, v);
    var g := Group(s.blocks, r.id);
    BlocksAreGrouped(s.blocks, s, r.id);
    GroupedChildren(t.blocks, v, r.id);
    forall i | 0 <= i < |g|
      ensures BlockSound(BlockOf(g[i], s), nodes)
    {
      assert g[i] in g;
      assert BlockMatches(t, v, g[i].id, nodes);
      BlockIsSound(t, v, g[i], nodes);
    }
  }

  lemma {:induction false} RootsAreCounted(rows: seq<Row>, v: nat, id: string)
    requires forall k :: 0 <= k < |rows| ==> rows[k].version == v && rows[k].parent == 0
    ensures multiset(RowNames(rows))[id] == Tally(rows, v, 0, id)
  {
    if rows == [] {
      assert RowNames(rows) == [];
    } else {
      var front, row := Front(rows), rows[|rows| - 1];
      RootsAreCounted(front, v, id);
      TallyOneMore(front, row, v, 0, id);
      assert rows == front + [row];
      assert RowNames(rows) == RowNames(front) + [row.name];
    }
  }

  lemma StacksAreListed(t: Tables, v: nat)
    requires StacksHaveNoParent(t.stacks)
    ensures
      var rows := RowsOf(t.stacks, v);
      && InOrder(RowNames(rows), Before)
      && (forall stem :: multiset(RowNames(rows))[stem] == Tally(t.stacks, v, 0, stem))
  {
    QueryReturns(t.stacks, v);
    var rows := RowsOf(t.stacks, v);
    OrderOfNames(rows);
    forall k | 0 <= k < |rows|
      ensures rows[k].version == v && rows[k].parent == 0
    {
      assert rows[k] in rows;
    }
    forall stem
      ensures multiset(RowNames(rows))[stem] == Tally(t.stacks, v, 0, stem)
    {
      RootsAreCounted(rows, v, stem);
    }
  }

  lemma EachStackIsSound(t: Tables, v: nat, files: seq<File>, r: Row)
    requires WellFormed(t) && TreeMatches(t, v, files) && r in t.stacks && r.version == v
    ensures DocOf(files, r.name).Some?
    ensures StackSound(StackOf(r, Select(t, v)), DocOf(files, r.name).value.nodes)
  {
    var k :| 0 <= k < |t.stacks| && t.stacks[k] == r;
    StackIsSound(t, v, r, DocOf(files, r.name).value.nodes);
  }

  lemma SnapshotIsSound(db: Database, v: nat, files: seq<File>)
    requires WellFormed(db.tables) && StacksHaveNoParent(db.tables.stacks) && v < |db.versions|
    requires TreeMatches(db.tables, v, files)
    ensures SnapshotOf(db, v).Some? && SnapshotSound(SnapshotOf(db, v).value, files)
  {
    var t := db.tables;
    var s := Select(t, v);
    StacksAreMapped(s.stacks, s);
    StacksAreListed(t, v);
    QueryReturns(t.stacks, v);
    var stacks := SnapshotOf(db, v).value.stacks;
    forall i | 0 <= i < |stacks|
      ensures DocOf(files, stacks[i].name).Some? && StackSound(stacks[i], DocOf(files, stacks[i].name).value.nodes)
    {
      assert s.stacks[i] in s.stacks;
      EachStackIsSound(t, v, files, s.stacks[i]);
    }
  }

  ghost predicate StacksHaveNoParent(stacks: seq<Row>)
  {
    forall r :: r in stacks ==> r.parent == 0
  }

  // ---------- one seed ----------

  ghost predicate Adds(table: seq<Row>, longer: seq<Row>, v: nat)
  {
    && |table| <= |longer| && longer[..|table|] == table
    && (forall k :: |table| <= k < |longer| ==> longer[k].version == v)
  }

  ghost predicate AddsLevels(table: seq<LevelRow>, longer: seq<LevelRow>, v: nat)
  {
    && |table| <= |longer| && longer[..|table|] == table
    && (forall k :: |table| <= k < |longer| ==> longer[k].version == v)
  }

  /** Every row of `t` stands, and what is added belongs to version v. */
  ghost predicate AddsVersion(t: Tables, longer: Tables, v: nat)
  {
    && Adds(t.stacks, longer.stacks, v) && Adds(t.blocks, longer.blocks, v)
    && Adds(t.competencies, longer.competencies, v) && Adds(t.topics, longer.topics, v)
    && AddsLevels(t.levels, longer.levels, v)
  }

  lemma FileAddsVersion(t: Tables, v: nat, file: File)
    ensures AddsVersion(t, Materialised(t, v, file), v)
  {
    var nodes := ById(file.doc.nodes);
    var blocks := BlockKeys(t, v, nodes);
    AttachGrows(t.blocks, v, RootKeys(t), nodes, 0);
    AttachGrows(t.competencies, v, blocks, nodes, 0);
    AttachGrows(t.topics, v, CompetencyKeys(t, v, nodes), nodes, 0);
    AttachLevelsGrows(t.levels, v, t.competencies, blocks, nodes);
  }

  lemma AddsOn(a: seq<Row>, b: seq<Row>, c: seq<Row>, v: nat)
    requires Adds(a, b, v) && Adds(b, c, v)
    ensures Adds(a, c, v)
  {
    assert c[..|a|] == b[..|a|];
    forall k | |a| <= k < |c|
      ensures c[k].version == v
    {
      if k < |b| {
        assert c[..|b|][k] == b[k];
      }
    }
  }

  lemma AddsLevelsOn(a: seq<LevelRow>, b: seq<LevelRow>, c: seq<LevelRow>, v: nat)
    requires AddsLevels(a, b, v) && AddsLevels(b, c, v)
    ensures AddsLevels(a, c, v)
  {
    assert c[..|a|] == b[..|a|];
    forall k | |a| <= k < |c|
      ensures c[k].version == v
    {
      if k < |b| {
        assert c[..|b|][k] == b[k];
      }
    }
  }

  lemma {:induction false} FilesAddVersion(t: Tables, v: nat, files: seq<File>)
    ensures AddsVersion(t, AllMaterialised(t, v, files), v)
  {
    if files != [] {
      var m, longer := AllMaterialised(t, v, Front(files)), AllMaterialised(t, v, files);
      FilesAddVersion(t, v, Front(files));
      FileAddsVersion(m, v, Last(files));
      AddsOn(t.stacks, m.stacks, longer.stacks, v);
      AddsOn(t.blocks, m.blocks, longer.blocks, v);
      AddsOn(t.competencies, m.competencies, longer.competencies, v);
      AddsOn(t.topics, m.topics, longer.topics, v);
      AddsLevelsOn(t.levels, m.levels, longer.levels, v);
    }
  }

  lemma {:induction false} FilterNone<T>(s: seq<T>, keep: T -> bool)
    requires forall k :: 0 <= k < |s| ==> !keep(s[k])
    ensures Filter(s, keep) == []
  {
    if s != [] {
      assert !keep(s[|s| - 1]);
      FilterNone(Front(s), keep);
    }
  }

  lemma RowsOfOthers(table: seq<Row>, longer: seq<Row>, v: nat, other: nat)
    requires Adds(table, longer, v) && other != v
    ensures RowsOf(longer, other) == RowsOf(table, other)
  {
    var keep := OfVersion(other);
    var added := longer[|table|..];
    assert longer == table + added;
    FilterAppend(table, added, keep);
    FilterNone(added, keep);
    assert Filter(table, keep) + [] == Filter(table, keep);
  }

  lemma LevelsOfOthers(table: seq<LevelRow>, longer: seq<LevelRow>, v: nat, other: nat)
    requires AddsLevels(table, longer, v) && other != v
    ensures LevelsOf(longer, other) == LevelsOf(table, other)
  {
    var keep := LevelOfVersion(other);
    var added := longer[|table|..];
    assert longer == table + added;
    FilterAppend(table, added, keep);
    FilterNone(added, keep);
    assert Filter(table, keep) + [] == Filter(table, keep);
  }

  lemma SelectionOfOthers(t: Tables, longer: Tables, v: nat, other: nat)
    requires AddsVersion(t, longer, v) && other != v
    ensures Select(longer, other) == Select(t, other)
  {
    RowsOfOthers(t.stacks, longer.stacks, v, other);
    RowsOfOthers(t.blocks, longer.blocks, v, other);
    RowsOfOthers(t.competencies, longer.competencies, v, other);
    RowsOfOthers(t.topics, longer.topics, v, other);
    LevelsOfOthers(t.levels, longer.levels, v, other);
  }

  // ---------- histories ----------

  ghost predicate VersionsBelow(table: seq<Row>, n: nat)
  {
    forall k :: 0 <= k < |table| ==> table[k].version < n
  }

  ghost predicate LevelVersionsBelow(table: seq<LevelRow>, n: nat)
  {
    forall k :: 0 <= k < |table| ==> table[k].version < n
  }

  /** What every sequence of seeds keeps; the last clause is the UNIQUE constraint. */
  ghost predicate DatabaseInvariant(db: Database)
  {
    && WellFormed(db.tables) && StacksHaveNoParent(db.tables.stacks) && VersionsAgree(db.tables)
    && VersionsBelow(db.tables.stacks, |db.versions|) && VersionsBelow(db.tables.blocks, |db.versions|)
    && VersionsBelow(db.tables.competencies, |db.versions|) && VersionsBelow(db.tables.topics, |db.versions|)
    && LevelVersionsBelow(db.tables.levels, |db.versions|)
    && |db.audit| == |db.versions|
    && (forall i, j :: 0 <= i < j < |db.versions| ==> db.versions[i].hash != db.versions[j].hash)
  }

  lemma AddedStaysBelow(table: seq<Row>, longer: seq<Row>, v: nat)
    requires VersionsBelow(table, v) && Adds(table, longer, v)
    ensures VersionsBelow(longer, v + 1)
  {
    forall k | 0 <= k < |longer|
      ensures longer[k].version < v + 1
    {
      if k < |table| {
        assert longer[..|table|][k] == table[k];
      }
    }
  }

  lemma AddedLevelsStayBelow(table: seq<LevelRow>, longer: seq<LevelRow>, v: nat)
    requires LevelVersionsBelow(table, v) && AddsLevels(table, longer, v)
    ensures LevelVersionsBelow(longer, v + 1)
  {
    forall k | 0 <= k < |longer|
      ensures longer[k].version < v + 1
    {
      if k < |table| {
        assert longer[..|table|][k] == table[k];
      }
    }
  }

  lemma {:induction false} StacksStayRoots(t: Tables, v: nat, files: seq<File>)
    requires StacksHaveNoParent(t.stacks)
    ensures StacksHaveNoParent(AllMaterialised(t, v, files).stacks)
  {
    if files != [] {
      StacksStayRoots(t, v, Front(files));
    }
  }

  lemma UnusedVersion(db: Database)
    requires DatabaseInvariant(db)
    ensures Unused(db.tables, |db.versions|)
  {
  }

  lemma NewVersionKeeps(db: Database, p: Payload)
    requires DatabaseInvariant(db) && DistinctStems(p.files) && !IsKnown(db, p.hash)
    ensures DatabaseInvariant(WithVersion(db, p))
    ensures TreeMatches(WithVersion(db, p).tables, |db.versions|, p.files)
  {
    var v, t, longer := |db.versions|, db.tables, WithVersion(db, p).tables;
    UnusedVersion(db);
    AllFilesMatch(t, v, p.files);
    FilesAddVersion(t, v, p.files);
    StacksStayRoots(t, v, p.files);
    FilesAgree(t, v, p.files);
    AddedStaysBelow(t.stacks, longer.stacks, v);
    AddedStaysBelow(t.blocks, longer.blocks, v);
    AddedStaysBelow(t.competencies, longer.competencies, v);
    AddedStaysBelow(t.topics, longer.topics, v);
    AddedLevelsStayBelow(t.levels, longer.levels, v);
  }

  lemma SeedKeeps(db: Database, p: Payload, dryRun: bool, db': Database, r: SeedResult)
    requires DatabaseInvariant(db) && DistinctStems(p.files) && Seeded(db, p, dryRun, db', r)
    ensures DatabaseInvariant(db')
  {
    if db' != db {
      NewVersionKeeps(db, p);
    }
  }

  /** A created version's snapshot is the forest of the files it came from: every id to
      depth three once, under its parent, in order, with its levels; retired ones included. */
  lemma SeedThenSnapshot(db: Database, p: Payload, dryRun: bool, db': Database, r: SeedResult)
    requires DatabaseInvariant(db) && DistinctStems(p.files)
    requires Seeded(db, p, dryRun, db', r) && r.Created?
    ensures SnapshotOf(db, r.version).None?
    ensures SnapshotOf(db', r.version).Some? && SnapshotSound(SnapshotOf(db', r.version).value, p.files)
  {
    NewVersionKeeps(db, p);
    SnapshotIsSound(db', r.version, p.files);
  }

  /** Whatever a seed does, it leaves every earlier snapshot as it was. */
  lemma EarlierSnapshotsStand(db: Database, p: Payload, dryRun: bool, db': Database, r: SeedResult, v: nat)
    requires Seeded(db, p, dryRun, db', r) && v < |db.versions|
    ensures v < |db'.versions| && SnapshotOf(db', v) == SnapshotOf(db, v)
  {
    if db' != db {
      FilesAddVersion(db.tables, |db.versions|, p.files);
      SelectionOfOthers(db.tables, db'.tables, |db.versions|, v);
    }
  }

  datatype SeedCall = SeedCall(payload: Payload, dryRun: bool)

  ghost predicate SeededBy(db: Database, call: SeedCall, db': Database)
  {
    DistinctStems(call.payload.files) && exists r :: Seeded(db, call.payload, call.dryRun, db', r)
  }

  const EMPTY_DATABASE := Database([], Tables([], [], [], [], []), [])

  /** The databases between the calls of a history. */
  ghost predicate IsHistory(states: seq<Database>, calls: seq<SeedCall>)
  {
    && |states| == |calls| + 1 && states[0] == EMPTY_DATABASE
    && (forall k :: 0 <= k < |calls| ==> SeededBy(states[k], calls[k], states[k + 1]))
  }

  lemma {:induction false} HistoryKeeps(states: seq<Database>, calls: seq<SeedCall>, k: nat)
    requires IsHistory(states, calls) && k <= |calls|
    ensures DatabaseInvariant(states[k])
  {
    if k > 0 {
      HistoryKeeps(states, calls, k - 1);
      var call := calls[k - 1];
      assert SeededBy(states[k - 1], call, states[k]);
      var r :| Seeded(states[k - 1], call.payload, call.dryRun, states[k], r);
      SeedKeeps(states[k - 1], call.payload, call.dryRun, states[k], r);
    }
  }

  /** A version once created is never altered: every later database gives the same
      snapshot of it, whatever was seeded since. */
  lemma {:induction false} SnapshotsAreImmutable(states: seq<Database>, calls: seq<SeedCall>, i: nat, j: nat, v: nat)
    requires IsHistory(states, calls) && i <= j <= |calls| && v < |states[i].versions|
    ensures v < |states[j].versions| && SnapshotOf(states[j], v) == SnapshotOf(states[i], v)
    decreases j
  {
    if i < j {
      SnapshotsAreImmutable(states, calls, i, j - 1, v);
      var call := calls[j - 1];
      assert SeededBy(states[j - 1], call, states[j]);
      var r :| Seeded(states[j - 1], call.payload, call.dryRun, states[j], r);
      EarlierSnapshotsStand(states[j - 1], call.payload, call.dryRun, states[j], r, v);
    }
  }

  /** Version v is the forest of that payload. */
  ghost predicate IsForestOf(db: Database, v: nat, p: Payload)
  {
    && v < |db.versions| && db.versions[v].hash == p.hash
    && SnapshotOf(db, v).Some? && SnapshotSound(SnapshotOf(db, v).value, p.files)
  }

  lemma NewestIsForest(db: Database, call: SeedCall, db': Database)
    requires DatabaseInvariant(db) && SeededBy(db, call, db') && |db.versions| < |db'.versions|
    ensures |db'.versions| == |db.versions| + 1 && IsForestOf(db', |db.versions|, call.payload)
  {
    var r :| Seeded(db, call.payload, call.dryRun, db', r);
    SeedThenSnapshot(db, call.payload, call.dryRun, db', r);
  }

  lemma OlderStaysForest(db: Database, call: SeedCall, db': Database, v: nat, p: Payload)
    requires SeededBy(db, call, db') && IsForestOf(db, v, p)
    ensures IsForestOf(db', v, p)
  {
    var r :| Seeded(db, call.payload, call.dryRun, db', r);
    EarlierSnapshotsStand(db, call.payload, call.dryRun, db', r, v);
  }

  /** Version v is the forest of the payload of one of the calls. */
  ghost predicate ComesFrom(db: Database, v: nat, calls: seq<SeedCall>)
  {
    exists call :: call in calls && IsForestOf(db, v, call.payload)
  }

  lemma OlderComesFrom(db: Database, calls: seq<SeedCall>, call: SeedCall, db': Database, v: nat)
    requires SeededBy(db, call, db') && ComesFrom(db, v, calls)
    ensures ComesFrom(db', v, calls + [call])
  {
    var older :| older in calls && IsForestOf(db, v, older.payload);
    OlderStaysForest(db, call, db', v, older.payload);
    assert older in calls + [call];
  }

  lemma NewestComesFrom(db: Database, calls: seq<SeedCall>, call: SeedCall, db': Database)
    requires DatabaseInvariant(db) && SeededBy(db, call, db') && |db.versions| < |db'.versions|
    ensures |db'.versions| == |db.versions| + 1 && ComesFrom(db', |db.versions|, calls + [call])
  {
    NewestIsForest(db, call, db');
    assert call in calls + [call];
  }

  lemma StepComesFrom(db: Database, calls: seq<SeedCall>, call: SeedCall, db': Database, v: nat)
    requires DatabaseInvariant(db) && SeededBy(db, call, db') && v < |db'.versions|
    requires v < |db.versions| ==> ComesFrom(db, v, calls)
    ensures ComesFrom(db', v, calls + [call])
  {
    if v < |db.versions| {
      OlderComesFrom(db, calls, call, db', v);
    } else {
      NewestComesFrom(db, calls, call, db');
    }
  }

  ghost predicate AllComeFrom(db: Database, calls: seq<SeedCall>)
  {
    forall v :: 0 <= v < |db.versions| ==> ComesFrom(db, v, calls)
  }

  lemma StepsComeFrom(db: Database, calls: seq<SeedCall>, call: SeedCall, db': Database)
    requires DatabaseInvariant(db) && SeededBy(db, call, db') && AllComeFrom(db, calls)
    ensures AllComeFrom(db', calls + [call])
  {
    forall v | 0 <= v < |db'.versions|
      ensures ComesFrom(db', v, calls + [call])
    {
      StepComesFrom(db, calls, call, db', v);
    }
  }

  /** In any history, each version that exists is, to this day, the forest of the payload
      of one of the calls so far. */
  lemma {:induction false} EveryVersionIsItsPayload(states: seq<Database>, calls: seq<SeedCall>, j: nat)
    requires IsHistory(states, calls) && j <= |calls|
    ensures AllComeFrom(states[j], calls[..j])
    decreases j
  {
    if j > 0 {
      EveryVersionIsItsPayload(states, calls, j - 1);
      HistoryKeeps(states, calls, j - 1);
      assert SeededBy(states[j - 1], calls[j - 1], states[j]);
      assert calls[..j] == calls[..j - 1] + [calls[j - 1]];
      StepsComeFrom(states[j - 1], calls[..j - 1], calls[j - 1], states[j]);
    }
  }

  /** Seeding the same files again is a no-op; seeding an older payload again is refused
      without a trace. */
  lemma ReseedingChangesNothing(db: Database, p: Payload, dryRun: bool, db': Database, r: SeedResult)
    requires DatabaseInvariant(db) && IsKnown(db, p.hash) && Seeded(db, p, dryRun, db', r)
    ensures db' == db && !r.Created?
    ensures r == Noop <==> db.versions[|db.versions| - 1].hash == p.hash
  {
  }

  // ---------- tags and block ids ----------

  /** A created version is tagged with "tree:" and the first eight characters of its hash. */
  lemma TagsNameTheHash(db: Database, p: Payload)
    ensures
      var v := Last(WithVersion(db, p).versions);
      && v.hash == p.hash && |WithVersion(db, p).versions| == |db.versions| + 1
      && |v.tag| == 5 + (if |p.hash| < 8 then |p.hash| else 8)
      && (forall k :: 0 <= k < |v.tag| ==> v.tag[k] == if k < 5 then "tree:"[k] else p.hash[k - 5])
  {
  }

  /** The ids that the rename check ignores are those that continue "block.". */
  lemma BlockIdsContinueBlock(id: string)
    ensures IsBlockId(id) <==> exists rest: string :: id == "block." + rest
  {
    if IsBlockId(id) {
      assert id == "block." + id[6..];
    }
  }
}
