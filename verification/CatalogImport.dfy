/** Importing the territorial catalog (src/infrastructure/catalog.rs): parents are looked
    up before their children are written, which is what keeps the hierarchy free of
    cycles for the walk of `effective_setup`. */
module CatalogImport {
  import opened Prelude
  import opened Electoral
  import opened Territory
  import opened Tables

  datatype Line = Line(code: string, level: Level, parent: string) | Malformed

  datatype Places = Places(next: Id, ids: map<string, Id>, catalog: Catalog)

  /** Codes and rows correspond, and every parent is a stored row. */
  ghost predicate Stored(p: Places) {
    && (forall a :: a in p.ids ==> p.ids[a] < p.next && p.ids[a] in p.catalog)
    && (forall a, b :: a in p.ids && b in p.ids && a != b ==> p.ids[a] != p.ids[b])
    && (forall j :: j in p.catalog ==> j < p.next)
    && (forall j :: j in p.catalog && p.catalog[j].parent.Some? ==> p.catalog[j].parent.value in p.catalog)
  }

  function Upsert(p: Places, code: string, row: Jurisdiction): Places {
    if code in p.ids then p.(catalog := p.catalog[p.ids[code] := row])
    else Places(p.next + 1, p.ids[code := p.next], p.catalog[p.next := row])
  }

  function ImportLine(p: Places, line: Line): Option<Places> {
    if line.Malformed? then None
    else if line.parent == "" then Some(Upsert(p, line.code, Jurisdiction(line.level, None)))
    else if line.parent !in p.ids then None
    else Some(Upsert(p, line.code, Jurisdiction(line.level, Some(p.ids[line.parent]))))
  }

  function ImportAll(p: Places, lines: seq<Line>): Option<Places> {
    if lines == [] then Some(p)
    else
      match ImportAll(p, lines[..|lines| - 1])
      case None => None
      case Some(q) => ImportLine(q, lines[|lines| - 1])
  }

  /** One transaction: all lines or none. */
  method Import(p: Places, lines: seq<Line>) returns (r: Option<Places>)
    ensures r == ImportAll(p, lines)
  {
    var q := p;
    for k := 0 to |lines|
      invariant ImportAll(p, lines[..k]) == Some(q)
    {
      assert lines[..k + 1][..k] == lines[..k];
      var line := lines[k];
      if line.Malformed? {
        ImportStops(p, lines, k);
        return None;
      }
      var parent: Option<Id> := None;
      if line.parent != "" {
        if line.parent !in q.ids {
          ImportStops(p, lines, k);
          return None;
        }
        parent := Some(q.ids[line.parent]);
      }
      q := Upsert(q, line.code, Jurisdiction(line.level, parent));
    }
    assert lines[..|lines|] == lines;
    r := Some(q);
  }

  lemma {:induction false} ImportStops(p: Places, lines: seq<Line>, k: nat)
    requires k < |lines| && ImportAll(p, lines[..k + 1]).None?
    ensures ImportAll(p, lines).None?
    decreases |lines|
  {
    if k + 1 == |lines| {
      assert lines[..k + 1] == lines;
    } else {
      assert lines[..|lines| - 1][..k + 1] == lines[..k + 1];
      ImportStops(p, lines[..|lines| - 1], k);
    }
  }

  // ------------------------------------------------------------ cycles

  /** `a` is `j` or one of its ancestors. */
  ghost predicate Above(c: Catalog, j: Id, a: Id) { exists n: nat :: Up(c, j, n) == Some(a) }

  /** Away from the changed row the walk up is the old one. */
  lemma {:induction false} SameUp(c: Catalog, j: Id, row: Jurisdiction, k: Id, n: nat)
    requires forall m: nat :: m < n ==> Up(c, k, m) != Some(j)
    ensures Up(c[j := row], k, n) == Up(c, k, n)
  {
    if n > 0 {
      SameUp(c, j, row, k, n - 1);
      assert Up(c, k, n - 1) != Some(j);
    }
  }

  ghost predicate Avoids(c: Catalog, k: Id, j: Id, n: nat) { forall m: nat :: m < n ==> Up(c, k, m) != Some(j) }

  lemma FirstVisit(c: Catalog, k: Id, j: Id, n: nat) returns (f: nat)
    requires Up(c, k, n) == Some(j)
    ensures f <= n && Up(c, k, f) == Some(j) && Avoids(c, k, j, f)
  {
    f := n;
    if m: nat :| m < n && Up(c, k, m) == Some(j) {
      f := FirstVisit(c, k, j, m);
    }
  }

  lemma ChangedRowEnds(c: Catalog, j: Id, row: Jurisdiction)
    requires row.parent.Some? ==> Rooted(c, row.parent.value) && !Above(c, row.parent.value, j)
    ensures Rooted(c[j := row], j)
  {
    var d := c[j := row];
    assert Up(d, j, 0) == Some(j) && Up(d, j, 1) == row.parent;
    if row.parent.Some? {
      var p := row.parent.value;
      var top: nat :| Up(c, p, top).None?;
      assert forall m: nat :: m < top ==> Up(c, p, m) != Some(j);
      hide Above, Rooted;
      SameUp(c, j, row, p, top);
      UpCompose(d, j, 1, p, top);
    }
    assert exists n: nat :: Up(d, j, n).None?;
  }

  lemma OtherRowEnds(c: Catalog, j: Id, row: Jurisdiction, k: Id)
    requires Rooted(c, k) && Rooted(c[j := row], j)
    ensures Rooted(c[j := row], k)
  {
    hide Up, Avoids;
    var d := c[j := row];
    var end: nat :| Up(d, j, end).None?;
    var top: nat :| Up(c, k, top).None?;
    if n: nat :| n <= top && Up(c, k, n) == Some(j) {
      var f := FirstVisit(c, k, j, n);
      SameUntil(c, j, row, k, f);
      UpCompose(d, k, f, j, end);
      assert Up(d, k, f + end).None?;
    } else {
      NeverVisits(c, k, j, top);
      SameUntil(c, j, row, k, top);
      assert Up(d, k, top).None?;
    }
  }

  lemma NeverVisits(c: Catalog, k: Id, j: Id, top: nat)
    requires forall n: nat :: n <= top ==> Up(c, k, n) != Some(j)
    ensures Avoids(c, k, j, top)
  {
  }

  lemma SameUntil(c: Catalog, j: Id, row: Jurisdiction, k: Id, n: nat)
    requires Avoids(c, k, j, n)
    ensures Up(c[j := row], k, n) == Up(c, k, n)
  {
    SameUp(c, j, row, k, n);
  }

  lemma {:induction false} LoopsForEver(c: Catalog, j: Id, n: nat, m: nat)
    requires Up(c, j, n) == Some(j) && n > 0
    ensures Up(c, j, m).Some?
    decreases m
  {
    if m >= n {
      LoopsForEver(c, j, n, m - n);
      UpCompose(c, j, n, j, m - n);
    } else if Up(c, j, m).None? {
      PastTheRoot(c, j, m, n);
    }
  }

  lemma ClosedLoop(c: Catalog, j: Id, row: Jurisdiction, n: nat)
    requires row.parent.Some? && Up(c, row.parent.value, n) == Some(j)
    ensures !Rooted(c[j := row], j)
  {
    var d, p := c[j := row], row.parent.value;
    assert Up(d, j, 0) == Some(j) && Up(d, j, 1) == Some(p);
    hide Up, Avoids;
    var f := FirstVisit(c, p, j, n);
    SameUntil(c, j, row, p, f);
    UpCompose(d, j, 1, p, f);
    forall m: nat
      ensures Up(d, j, m).Some?
    {
      LoopsForEver(d, j, 1 + f, m);
    }
  }

  /** Writing a parent keeps the hierarchy free of cycles exactly when the row is not at or
      above that parent already. */
  lemma ReparentIff(c: Catalog, j: Id, row: Jurisdiction)
    requires Forest(c)
    ensures Forest(c[j := row]) <==> (row.parent.Some? ==> !Above(c, row.parent.value, j))
  {
    hide Rooted;
    var d := c[j := row];
    if row.parent.Some? && Above(c, row.parent.value, j) {
      var n: nat :| Up(c, row.parent.value, n) == Some(j);
      ClosedLoop(c, j, row, n);
    } else {
      hide Above;
      ChangedRowEnds(c, j, row);
      forall k
        ensures Rooted(d, k)
      {
        OtherRowEnds(c, j, row, k);
      }
    }
  }

  // ------------------------------------------------------------ lines

  /** The line gives a stored row a parent at or below that row. */
  ghost predicate ClosesCycle(p: Places, line: Line) {
    && line.Line? && line.code in p.ids && line.parent != "" && line.parent in p.ids
    && Above(p.catalog, p.ids[line.parent], p.ids[line.code])
  }

  lemma NewRowIsNowhere(p: Places, j: Id, k: Id)
    requires Stored(p) && j !in p.catalog && k in p.catalog
    ensures !Above(p.catalog, k, j)
  {
    forall n: nat
      ensures Up(p.catalog, k, n) != Some(j)
    {
      if n > 0 {
        var _ := Up(p.catalog, k, n - 1);
      }
    }
  }

  lemma UpsertKeepsStored(p: Places, code: string, row: Jurisdiction)
    requires Stored(p) && (row.parent.Some? ==> row.parent.value in p.catalog)
    ensures Stored(Upsert(p, code, row))
  {
    var q := Upsert(p, code, row);
    assert p.catalog.Keys <= q.catalog.Keys;
  }

  /** A line is imported exactly when it is well formed and its parent, if it names one, is
      stored; then its code has the row it describes and every other row stays. */
  lemma LineIsWritten(p: Places, line: Line)
    requires Stored(p)
    ensures ImportLine(p, line).Some? <==> line.Line? && (line.parent != "" ==> line.parent in p.ids)
    ensures ImportLine(p, line).Some? ==>
              var q := ImportLine(p, line).value;
              && line.code in q.ids && q.ids[line.code] in q.catalog
              && q.catalog[q.ids[line.code]].level == line.level
              && q.catalog[q.ids[line.code]].parent == (if line.parent == "" then None else Some(p.ids[line.parent]))
              && (forall a :: a in p.ids ==> a in q.ids && q.ids[a] == p.ids[a])
              && (forall a :: a in q.ids && a != line.code ==> a in p.ids)
              && (forall j :: j in p.catalog && j != q.ids[line.code] ==>
                    j in q.catalog && q.catalog[j] == p.catalog[j])
              && (line.code !in p.ids ==> q.ids[line.code] !in p.catalog)
  {
  }

  lemma LineKeepsStored(p: Places, line: Line)
    requires Stored(p) && ImportLine(p, line).Some?
    ensures Stored(ImportLine(p, line).value)
  {
    hide Upsert;
    var row := Jurisdiction(line.level, if line.parent == "" then None else Some(p.ids[line.parent]));
    assert row.parent.Some? ==> row.parent.value in p.catalog;
    hide Stored;
    UpsertKeepsStored(p, line.code, row);
  }

  /** An imported line keeps the hierarchy free of cycles exactly when it does not give a
      stored row a parent at or below that row. */
  lemma LineKeepsForestIff(p: Places, line: Line)
    requires Stored(p) && Forest(p.catalog) && ImportLine(p, line).Some?
    ensures Forest(ImportLine(p, line).value.catalog) <==> !ClosesCycle(p, line)
  {
    hide Forest, Above;
    var j := if line.code in p.ids then p.ids[line.code] else p.next;
    var row := Jurisdiction(line.level, if line.parent == "" then None else Some(p.ids[line.parent]));
    assert ImportLine(p, line).value.catalog == p.catalog[j := row];
    ReparentIff(p.catalog, j, row);
    if row.parent.Some? && line.code !in p.ids {
      NewRowIsNowhere(p, j, row.parent.value);
    }
  }

  // ------------------------------------------------------------ files

  /** No line names a code that is stored or that an earlier line wrote. */
  ghost predicate FreshCodes(p: Places, lines: seq<Line>) {
    && (forall k :: 0 <= k < |lines| && lines[k].Line? ==> lines[k].code !in p.ids)
    && (forall k, l :: 0 <= k < l < |lines| && lines[k].Line? && lines[l].Line? ==> lines[k].code != lines[l].code)
  }

  /** What the first `n` lines leave. */
  function Prefix(p: Places, lines: seq<Line>, n: nat): Option<Places>
    requires n <= |lines|
  {
    ImportAll(p, lines[..n])
  }

  /** Line `k` closes a cycle in what the lines before it left. */
  ghost predicate BadLine(p: Places, lines: seq<Line>, k: nat) {
    k < |lines| && Prefix(p, lines, k).Some? && ClosesCycle(Prefix(p, lines, k).value, lines[k])
  }

  ghost predicate ForestAt(p: Places, lines: seq<Line>, n: nat) {
    n <= |lines| && Prefix(p, lines, n).Some? && Forest(Prefix(p, lines, n).value.catalog)
  }

  lemma PrefixImports(p: Places, lines: seq<Line>, n: nat)
    requires n <= |lines| && ImportAll(p, lines).Some?
    ensures Prefix(p, lines, n).Some?
  {
    if n < |lines| && Prefix(p, lines, n).None? {
      assert lines[..n + 1][..n] == lines[..n];
      ImportStops(p, lines, n);
    }
    assert lines[..|lines|] == lines;
  }

  lemma NextPrefix(p: Places, lines: seq<Line>, n: nat)
    requires n < |lines| && ImportAll(p, lines).Some?
    ensures Prefix(p, lines, n).Some? && Prefix(p, lines, n + 1).Some?
    ensures ImportLine(Prefix(p, lines, n).value, lines[n]) == Prefix(p, lines, n + 1)
  {
    PrefixImports(p, lines, n);
    PrefixImports(p, lines, n + 1);
    assert lines[..n + 1][..n] == lines[..n];
  }

  lemma {:induction false} GoodPrefix(p: Places, lines: seq<Line>, n: nat)
    requires Stored(p) && Forest(p.catalog) && n <= |lines| && ImportAll(p, lines).Some?
    requires forall k: nat :: k < n ==> !BadLine(p, lines, k)
    ensures ForestAt(p, lines, n) && Stored(Prefix(p, lines, n).value)
  {
    hide Forest, Stored, ClosesCycle, ImportLine;
    if n == 0 {
      assert lines[..0] == [];
    } else {
      GoodPrefix(p, lines, n - 1);
      NextPrefix(p, lines, n - 1);
      var q := Prefix(p, lines, n - 1).value;
      assert !BadLine(p, lines, n - 1);
      LineKeepsStored(q, lines[n - 1]);
      LineKeepsForestIff(q, lines[n - 1]);
    }
  }

  /** The hierarchy is free of cycles after every line of a file exactly when no line
      closes one; the hierarchy the import commits is the one after the last line. */
  lemma FileKeepsForestIff(p: Places, lines: seq<Line>)
    requires Stored(p) && Forest(p.catalog) && ImportAll(p, lines).Some?
    ensures (forall n: nat :: n <= |lines| ==> ForestAt(p, lines, n)) <==> (forall k: nat :: !BadLine(p, lines, k))
    ensures (forall k: nat :: !BadLine(p, lines, k)) ==> Forest(ImportAll(p, lines).value.catalog)
  {
    hide Forest, Stored, ClosesCycle, ImportLine;
    if forall k: nat :: !BadLine(p, lines, k) {
      forall n: nat | n <= |lines|
        ensures ForestAt(p, lines, n)
      {
        GoodPrefix(p, lines, n);
      }
      assert ForestAt(p, lines, |lines|) && lines[..|lines|] == lines;
    } else {
      var k := FirstBad(p, lines);
      GoodPrefix(p, lines, k);
      NextPrefix(p, lines, k);
      LineKeepsForestIff(Prefix(p, lines, k).value, lines[k]);
      assert !ForestAt(p, lines, k + 1);
    }
  }

  lemma FirstBad(p: Places, lines: seq<Line>) returns (k: nat)
    requires exists k: nat :: BadLine(p, lines, k)
    ensures BadLine(p, lines, k) && forall m: nat :: m < k ==> !BadLine(p, lines, m)
  {
    k :| BadLine(p, lines, k);
    while exists m: nat :: m < k && BadLine(p, lines, m)
      invariant BadLine(p, lines, k)
      decreases k
    {
      var m: nat :| m < k && BadLine(p, lines, m);
      k := m;
    }
  }

  lemma {:induction false} ImportedCodes(p: Places, lines: seq<Line>)
    requires ImportAll(p, lines).Some?
    ensures forall a :: a in ImportAll(p, lines).value.ids <==>
              a in p.ids || exists k :: 0 <= k < |lines| && lines[k].Line? && lines[k].code == a
  {
    if lines != [] {
      var init := lines[..|lines| - 1];
      ImportedCodes(p, init);
      assert forall k :: 0 <= k < |init| ==> init[k] == lines[k];
    }
  }

  /** A file whose codes are all new and distinct leaves a hierarchy without cycles. */
  lemma FreshFileKeepsForest(p: Places, lines: seq<Line>)
    requires Stored(p) && Forest(p.catalog) && FreshCodes(p, lines) && ImportAll(p, lines).Some?
    ensures Stored(ImportAll(p, lines).value) && Forest(ImportAll(p, lines).value.catalog)
  {
    hide Forest, Stored;
    forall k: nat | k < |lines|
      ensures !BadLine(p, lines, k)
    {
      PrefixImports(p, lines, k);
      ImportedCodes(p, lines[..k]);
    }
    GoodPrefix(p, lines, |lines|);
    assert lines[..|lines|] == lines;
  }

  // ------------------------------------------------------------ the search on a cycle

  /** The walk of `effective_setup` after `steps` rounds: still at some jurisdiction, or
      ended with its answer. */
  datatype Search = Going(at: Id) | Ended(found: Option<Id>)

  ghost function SearchStep(t: Tables, j: Id): Search {
    if HasAdopted(t.setups, j) then Ended(Some(AdoptedRow(t.setups, j)))
    else if Parent(t.catalog, j).None? then Ended(None)
    else Going(Parent(t.catalog, j).value)
  }

  ghost function SearchAfter(t: Tables, j: Id, steps: nat): Search {
    if steps == 0 then Going(j)
    else
      match SearchAfter(t, j, steps - 1)
      case Going(at) => SearchStep(t, at)
      case Ended(found) => Ended(found)
  }

  ghost predicate SearchEnds(t: Tables, j: Id) { exists steps :: SearchAfter(t, j, steps).Ended? }

  /** Never past a root, and never at a jurisdiction with an adopted setup. */
  ghost predicate Endless(t: Tables, j: Id) { forall n: nat :: Up(t.catalog, j, n).Some? && !HitAt(t, j, n) }

  /** While nothing is found the search stands at the ancestor of that many steps. */
  lemma {:induction false} SearchStands(t: Tables, j: Id, n: nat)
    requires forall m: nat :: m < n ==> !HitAt(t, j, m)
    ensures match Up(t.catalog, j, n)
            case Some(a) => SearchAfter(t, j, n) == Going(a)
            case None => SearchAfter(t, j, n) == Ended(None)
  {
    hide HasAdopted;
    if n > 0 {
      SearchStands(t, j, n - 1);
      assert !HitAt(t, j, n - 1);
    }
  }

  /** The search for the effective setup ends exactly when the walk up leaves a root or
      meets an adopted setup, and then it has found the effective setup. */
  lemma SearchEndsIff(t: Tables, j: Id)
    ensures SearchEnds(t, j) <==> !Endless(t, j)
    ensures forall n: nat :: SearchAfter(t, j, n).Ended? ==> SearchAfter(t, j, n).found == EffectiveSetup(t, j)
  {
    hide HitAt, HasAdopted;
    if Endless(t, j) {
      forall n: nat
        ensures !SearchAfter(t, j, n).Ended?
      {
        SearchStands(t, j, n);
      }
    } else if Covered(t, j) {
      var n := NearestHit(t, j);
      SearchHits(t, j, n);
    } else {
      var n: nat :| Up(t.catalog, j, n).None?;
      assert forall m: nat :: !HitAt(t, j, m);
      SearchStands(t, j, n);
      forall m: nat | SearchAfter(t, j, m).Ended?
        ensures SearchAfter(t, j, m).found == None
      {
        SearchStands(t, j, m);
      }
    }
  }

  lemma SearchHits(t: Tables, j: Id, n: nat)
    requires Covered(t, j) && n == NearestHit(t, j)
    ensures SearchAfter(t, j, n + 1).Ended?
    ensures forall m: nat :: SearchAfter(t, j, m).Ended? ==> SearchAfter(t, j, m).found == EffectiveSetup(t, j)
  {
    SearchStands(t, j, n);
    forall m: nat | SearchAfter(t, j, m).Ended?
      ensures SearchAfter(t, j, m).found == EffectiveSetup(t, j)
    {
      if m <= n {
        SearchStands(t, j, m);
        if Up(t.catalog, j, m).None? {
          PastTheRoot(t.catalog, j, m, n);
        }
      } else {
        StaysEnded(t, j, n + 1, m);
      }
    }
  }

  lemma {:induction false} StaysEnded(t: Tables, j: Id, n: nat, m: nat)
    requires SearchAfter(t, j, n).Ended? && n <= m
    ensures SearchAfter(t, j, m) == SearchAfter(t, j, n)
  {
    if n < m {
      StaysEnded(t, j, n, m - 1);
    }
  }

  // ------------------------------------------------------------ files that close a cycle

  /** Two jurisdictions, each the parent of the other. */
  const LOOP: Catalog := map[0 := Jurisdiction(National, Some(1)), 1 := Jurisdiction(State, Some(0))]

  lemma LoopIsEndless(m: nat)
    ensures Up(LOOP, 0, m).Some? && !Rooted(LOOP, 0)
  {
    assert Up(LOOP, 0, 0) == Some(0) && Up(LOOP, 0, 1) == Some(1) && Up(LOOP, 0, 2) == Some(0);
    forall n: nat
      ensures Up(LOOP, 0, n).Some?
    {
      LoopsForEver(LOOP, 0, 2, n);
    }
  }

  const CHAIN: Places :=
    Places(2, map["A" := 0, "B" := 1], map[0 := Jurisdiction(National, None), 1 := Jurisdiction(State, Some(0))])

  /** A later line may name a code again: the second mention can close a cycle. */
  lemma RepeatedCodeLoops()
    ensures var lines := [Line("A", National, ""), Line("B", State, "A"), Line("A", National, "B")];
            var r := ImportAll(Places(0, map[], map[]), lines);
            r.Some? && r.value.catalog == LOOP && !Forest(r.value.catalog)
  {
    var empty := Places(0, map[], map[]);
    var a, b, again := Line("A", National, ""), Line("B", State, "A"), Line("A", National, "B");
    assert [a, b, again][..2] == [a, b] && [a, b][..1] == [a] && [a][..0] == [];
    assert ImportAll(empty, [a]) == Some(Places(1, map["A" := 0], map[0 := Jurisdiction(National, None)]));
    assert ImportAll(empty, [a, b]) == Some(CHAIN);
    assert ImportAll(empty, [a, b, again]).value.catalog == LOOP;
    LoopIsEndless(0);
  }

  /** So can a file without repeated codes over rows stored before: with no setup adopted
      the search for the effective setup then never ends. */
  lemma ChangedFileLoops(t: Tables)
    requires t.catalog == ImportAll(CHAIN, [Line("A", National, "B")]).value.catalog && t.setups == map[]
    ensures Stored(CHAIN) && Forest(CHAIN.catalog) && !Forest(t.catalog) && !SearchEnds(t, 0)
  {
    var line := Line("A", National, "B");
    assert [line][..0] == [];
    assert t.catalog == LOOP;
    forall j
      ensures Rooted(CHAIN.catalog, j)
    {
      assert Up(CHAIN.catalog, j, 1) == Parent(CHAIN.catalog, j);
      assert Up(CHAIN.catalog, j, 2).None?;
    }
    forall n: nat
      ensures Up(t.catalog, 0, n).Some? && !HitAt(t, 0, n)
    {
      LoopIsEndless(n);
    }
    LoopIsEndless(0);
    SearchEndsIff(t, 0);
  }
}
