/** The stored log with its process-wide cache, as requests and the background verifier
    use them. Appends by others happen between the pages of a walk, and a recheck walks
    without holding the cache. */
module AuditLog {
  import opened Prelude
  import opened AuditChain

  datatype Verified = Verified(seqNo: int, head: Hash, fullAt: int, kinds: Kinds)

  /** Twenty minutes: a cached full pass older than this is not built upon. */
  const STALE_FULL_PASS: int := 1_200_000

  /** What is cached was true of a prefix of the log and, the log being append-only, is. */
  ghost predicate Sound(rows: seq<Row>, v: Verified) {
    && 0 <= v.seqNo && Reached(rows, 0, v.seqNo)
    && Scan(Window(rows, 0, Some(v.seqNo)), 0, Genesis) == Valid(v.seqNo, v.head)
    && v.kinds == KindsOf(Window(rows, 0, Some(v.seqNo)), map[])
  }

  lemma SoundStays(rows: seq<Row>, es: seq<Entry>, v: Verified)
    requires Increasing(rows) && Sound(rows, v)
    ensures Sound(AppendAll(rows, es), v)
  {
    ReadStays(rows, es, 0, v.seqNo);
  }

  /** Continuing from a sound head gives the verdict and the kinds of a walk from the start. */
  lemma IncrementalIsFresh(rows: seq<Row>, v: Verified)
    requires Increasing(rows) && Sound(rows, v)
    ensures Scan(Window(rows, v.seqNo, None), v.seqNo, v.head) == Fresh(rows)
    ensures KindsOf(Window(rows, v.seqNo, None), v.kinds) == FreshKinds(rows)
  {
    WindowSplit(rows, 0, v.seqNo, None);
    ScanAppend(Window(rows, 0, Some(v.seqNo)), Window(rows, v.seqNo, None), 0, Genesis);
    KindsAppend(Window(rows, 0, Some(v.seqNo)), Window(rows, v.seqNo, None), map[]);
  }

  lemma NothingUpTo(rows: seq<Row>, after: int)
    ensures Window(rows, after, Some(after)) == []
  {
    WindowNone(rows, after, Some(after));
  }

  /** The whole window is the window up to its last row. */
  lemma WholeIsPrefix(rows: seq<Row>, n: int)
    requires Increasing(rows)
    requires var w := Window(rows, 0, None); n == if w == [] then 0 else w[|w| - 1].seqNo
    ensures 0 <= n && Reached(rows, 0, n) && Window(rows, 0, Some(n)) == Window(rows, 0, None)
  {
    var w := Window(rows, 0, None);
    NothingUpTo(rows, 0);
    if w != [] {
      WindowRows(rows, 0, None);
      assert w[|w| - 1] in w && w[|w| - 1] in rows;
      hide Window;
      WindowPage(rows, 0, 0, None, |w|);
      assert w[..|w|] == w;
    }
  }

  /** A verified log is sound up to its head. */
  lemma FreshIsSound(rows: seq<Row>, fullAt: int)
    requires Increasing(rows) && Fresh(rows).Valid?
    ensures Sound(rows, Verified(Fresh(rows).events, Fresh(rows).head, fullAt, FreshKinds(rows)))
  {
    hide Window, Scan, KindsOf, Increasing, Reached;
    ScanEnd(Window(rows, 0, None), 0, Genesis);
    WholeIsPrefix(rows, Fresh(rows).events);
  }

  lemma {:induction false} ScanEnd(w: seq<Row>, last: int, prev: Hash)
    requires Scan(w, last, prev).Valid?
    ensures Scan(w, last, prev).events == if w == [] then last else w[|w| - 1].seqNo
  {
    if w != [] {
      ScanEnd(w[1..], w[0].seqNo, w[0].hash);
    }
  }

  // ------------------------------------------------------------ kinds

  function AllKinds(rows: seq<Row>): set<string> { set k | 0 <= k < |rows| :: rows[k].entry.kind }

  function PublicKinds(rows: seq<Row>): set<string> {
    set k | 0 <= k < |rows| && rows[k].entry.public :: rows[k].entry.kind
  }

  /** The kinds a scope sees in a collected map. */
  function Shown(kinds: Kinds, restricted: bool): set<string> { set k | k in kinds && (restricted || kinds[k]) }

  lemma KindsOneMore(rows: seq<Row>, r: Row)
    ensures AllKinds(rows + [r]) == AllKinds(rows) + {r.entry.kind}
    ensures PublicKinds(rows + [r]) == PublicKinds(rows) + if r.entry.public then {r.entry.kind} else {}
  {
    var more := rows + [r];
    assert more[|rows|] == r;
    forall s | s in AllKinds(rows)
      ensures s in AllKinds(more)
    {
      var k :| 0 <= k < |rows| && rows[k].entry.kind == s;
      assert more[k].entry.kind == s;
    }
    forall s | s in PublicKinds(rows)
      ensures s in PublicKinds(more)
    {
      var k :| 0 <= k < |rows| && rows[k].entry.public && rows[k].entry.kind == s;
      assert more[k].entry.public && more[k].entry.kind == s;
    }
  }

  /** The kinds collected while verifying are the distinct kinds of the verified rows,
      in each scope. */
  lemma {:induction false} CollectedIsDistinct(rows: seq<Row>)
    ensures Shown(KindsOf(rows, map[]), true) == AllKinds(rows)
    ensures Shown(KindsOf(rows, map[]), false) == PublicKinds(rows)
  {
    if rows != [] {
      var init, r := rows[..|rows| - 1], rows[|rows| - 1];
      CollectedIsDistinct(init);
      assert rows == init + [r];
      KindsOneMore(init, r);
      var before := KindsOf(init, map[]);
      var kinds := KindsOf(rows, map[]);
      forall s
        ensures s in Shown(kinds, true) <==> s in Shown(before, true) || s == r.entry.kind
        ensures s in Shown(kinds, false) <==> s in Shown(before, false) || (s == r.entry.kind && r.entry.public)
      {
      }
    }
  }

  /** For a broken chain the restricted list is read first and the public one after
      whatever was appended meanwhile. */
  function QueriedKinds(first: seq<Row>, second: seq<Row>): Kinds {
    map k | k in AllKinds(first) + PublicKinds(second) :: k in PublicKinds(second)
  }

  predicate Has(es: seq<Entry>, kind: string) { exists e :: e in es && e.kind == kind }

  predicate HasPublic(es: seq<Entry>, kind: string) { exists e :: e in es && e.kind == kind && e.public }

  ghost predicate NoHiddenKind(rows: seq<Row>, gap: seq<Entry>) {
    forall e :: e in gap ==> e.kind in AllKinds(rows) || HasPublic(gap, e.kind)
  }

  lemma {:induction false} AppendedKinds(rows: seq<Row>, es: seq<Entry>)
    ensures forall s :: s in AllKinds(AppendAll(rows, es)) <==> s in AllKinds(rows) || Has(es, s)
    ensures forall s :: s in PublicKinds(AppendAll(rows, es)) <==> s in PublicKinds(rows) || HasPublic(es, s)
  {
    if es != [] {
      var init, last := es[..|es| - 1], es[|es| - 1];
      AppendedKinds(rows, init);
      var before := AppendAll(rows, init);
      KindsOneMore(before, NextRow(before, last));
      assert es == init + [last];
      forall s
        ensures Has(es, s) <==> Has(init, s) || last.kind == s
        ensures HasPublic(es, s) <==> HasPublic(init, s) || (last.kind == s && last.public)
      {
        assert last in es;
        assert forall e :: e in init ==> e in es;
      }
    }
  }

  /** The public filter of a broken chain is always the distinct query; the restricted
      one is, exactly when no kind that appeared between the two queries is restricted
      only. */
  lemma BrokenKindsIff(rows: seq<Row>, gap: seq<Entry>)
    ensures var later := AppendAll(rows, gap);
            && Shown(QueriedKinds(rows, later), false) == PublicKinds(later)
            && (Shown(QueriedKinds(rows, later), true) == AllKinds(later) <==> NoHiddenKind(rows, gap))
  {
    var later := AppendAll(rows, gap);
    AppendedKinds(rows, gap);
    PublicIsSome(later);
    var shown := Shown(QueriedKinds(rows, later), true);
    assert shown == AllKinds(rows) + PublicKinds(later);
    if NoHiddenKind(rows, gap) {
      forall s | s in AllKinds(later)
        ensures s in shown
      {
        if s !in AllKinds(rows) {
          var e :| e in gap && e.kind == s;
          assert HasPublic(gap, s);
        }
      }
    } else {
      var e :| e in gap && e.kind !in AllKinds(rows) && !HasPublic(gap, e.kind);
      assert e.kind in AllKinds(later) && e.kind !in shown by {
        PublicIsSome(rows);
      }
    }
  }

  lemma PublicIsSome(rows: seq<Row>)
    ensures PublicKinds(rows) <= AllKinds(rows)
  {
  }

  /** A restricted event of a new kind appended between the two queries is missing from
      the restricted filter of that answer. */
  lemma BrokenKindsMissOne(rows: seq<Row>, e: Entry)
    requires e.kind !in AllKinds(rows) && !e.public
    ensures var later := AppendAll(rows, [e]);
            e.kind in AllKinds(later) && e.kind !in Shown(QueriedKinds(rows, later), true)
  {
    assert e in [e];
    AppendedKinds(rows, [e]);
    PublicIsSome(rows);
  }

  // ------------------------------------------------------------ pages of a walk

  /** Everything read so far, from `after` up to `last`, verified and was collected. */
  ghost predicate ReadTo(rows: seq<Row>, after: int, afterHash: Hash, until: Option<int>, collected: Kinds,
                         last: int, prev: Hash, kinds: Kinds)
  {
    && after <= last && Reached(rows, after, last) && (last == after || AtMost(last, until))
    && Scan(Window(rows, after, Some(last)), after, afterHash) == Valid(last, prev)
    && kinds == KindsOf(Window(rows, after, Some(last)), collected)
  }

  predicate AtMost(last: int, until: Option<int>) { until.Some? ==> last <= until.value }

  /** The first rows of the rest of the log that a page has verified. */
  ghost predicate PageTo(got: seq<Row>, m: nat, last: int, prev: Hash, kinds: Kinds, last1: int, prev1: Hash,
                         kinds1: Kinds)
  {
    m <= |got| && Scan(got[..m], last, prev) == Valid(last1, prev1) && kinds1 == KindsOf(got[..m], kinds)
  }

  lemma PageNext(got: seq<Row>, m: nat, last: int, prev: Hash, kinds: Kinds, last1: int, prev1: Hash, kinds1: Kinds)
    requires m < |got| && PageTo(got, m, last, prev, kinds, last1, prev1, kinds1) && Links(got[m], last1, prev1)
    ensures PageTo(got, m + 1, last, prev, kinds, got[m].seqNo, got[m].hash, AddKind(kinds1, got[m].entry))
  {
    assert got[..m + 1] == got[..m] + [got[m]];
    ScanAppend(got[..m], [got[m]], last, prev);
    assert got[..m + 1][..m] == got[..m];
  }

  lemma StartReads(rows: seq<Row>, after: int, afterHash: Hash, until: Option<int>, collected: Kinds)
    ensures ReadTo(rows, after, afterHash, until, collected, after, afterHash, collected)
  {
    NothingUpTo(rows, after);
  }

  lemma OthersRead(rows: seq<Row>, es: seq<Entry>, after: int, afterHash: Hash, until: Option<int>, collected: Kinds,
                   last: int, prev: Hash, kinds: Kinds)
    requires Increasing(rows) && ReadTo(rows, after, afterHash, until, collected, last, prev, kinds)
    ensures ReadTo(AppendAll(rows, es), after, afterHash, until, collected, last, prev, kinds)
  {
    ReadStays(rows, es, after, last);
  }

  lemma WholeWindow(rows: seq<Row>, after: int, last: int, until: Option<int>)
    requires Increasing(rows) && after <= last && (last == after || AtMost(last, until))
    ensures Window(rows, after, until) == Window(rows, after, Some(last)) + Window(rows, last, until)
  {
    if AtMost(last, until) {
      WindowSplit(rows, after, last, until);
    } else {
      NothingUpTo(rows, after);
    }
  }

  /** A whole page extends what was read. */
  lemma PageReads(rows: seq<Row>, after: int, afterHash: Hash, until: Option<int>, collected: Kinds,
                  last: int, prev: Hash, kinds: Kinds, n: nat, last1: int, prev1: Hash, kinds1: Kinds)
    requires Increasing(rows) && ReadTo(rows, after, afterHash, until, collected, last, prev, kinds)
    requires n <= |Window(rows, last, until)|
    requires PageTo(Window(rows, last, until)[..n], n, last, prev, kinds, last1, prev1, kinds1)
    ensures ReadTo(rows, after, afterHash, until, collected, last1, prev1, kinds1)
    ensures Window(rows, last1, until) == Window(rows, last, until)[n..]
  {
    var rest := Window(rows, last, until);
    var got := rest[..n];
    assert got[..n] == got;
    if n > 0 {
      WindowRows(rows, last, until);
      assert rest[0] in rest && rest[n - 1] in rest;
      ScanEnd(got, last, prev);
      WindowPage(rows, after, last, until, n);
      ScanAppend(Window(rows, after, Some(last)), got, after, afterHash);
      KindsAppend(Window(rows, after, Some(last)), got, collected);
      NothingUpTo(rows, last);
      WindowPage(rows, last, last, until, n);
      WindowSplit(rows, last, last1, until);
    }
  }

  lemma PageBreaks(rows: seq<Row>, after: int, afterHash: Hash, until: Option<int>, collected: Kinds,
                   last: int, prev: Hash, kinds: Kinds, m: nat, last1: int, prev1: Hash, kinds1: Kinds)
    requires Increasing(rows) && ReadTo(rows, after, afterHash, until, collected, last, prev, kinds)
    requires m < |Window(rows, last, until)|
    requires PageTo(Window(rows, last, until), m, last, prev, kinds, last1, prev1, kinds1)
    requires !Links(Window(rows, last, until)[m], last1, prev1)
    ensures Scan(Window(rows, after, until), after, afterHash) == Broken(Window(rows, last, until)[m].seqNo)
  {
    var rest := Window(rows, last, until);
    WholeWindow(rows, after, last, until);
    ScanAppend(Window(rows, after, Some(last)), rest, after, afterHash);
    assert rest == rest[..m] + rest[m..];
    ScanAppend(rest[..m], rest[m..], last, prev);
  }

  lemma ReadAll(rows: seq<Row>, after: int, afterHash: Hash, until: Option<int>, collected: Kinds, last: int,
                prev: Hash, kinds: Kinds)
    requires Increasing(rows) && ReadTo(rows, after, afterHash, until, collected, last, prev, kinds)
    requires Window(rows, last, until) == []
    ensures Scan(Window(rows, after, until), after, afterHash) == Valid(last, prev)
    ensures kinds == KindsOf(Window(rows, after, until), collected)
  {
    WholeWindow(rows, after, last, until);
    assert Window(rows, after, Some(last)) + [] == Window(rows, after, Some(last));
  }

  // ------------------------------------------------------------ the log in memory

  datatype ChainView = ChainView(status: Status, kinds: Kinds)

  class Log {
    var rows: seq<Row>
    var cached: Option<Verified>
    /** Rechecks that have walked and not stored yet. */
    var walked: seq<Option<Verified>>

    ghost predicate Stable()
      reads this
    {
      && Increasing(rows)
      && (cached.Some? ==> Sound(rows, cached.value))
      && (forall k :: 0 <= k < |walked| && walked[k].Some? ==> Sound(rows, walked[k].value))
    }

    /** Opens any stored table, sound or not. */
    constructor (stored: seq<Row>)
      requires Increasing(stored)
      ensures Stable() && rows == stored && cached == None
    {
      rows, cached, walked := stored, None, [];
    }

    method Append(e: Entry) returns (n: int)
      requires Stable()
      modifies this`rows
      ensures Stable() && rows == AppendEntry(old(rows), e) && n == rows[|rows| - 1].seqNo
    {
      var prevSeq, prevHash := 0, Genesis;
      if rows != [] {
        prevSeq, prevHash := rows[|rows| - 1].seqNo, rows[|rows| - 1].hash;
      }
      n := prevSeq + 1;
      ghost var before := rows;
      rows := rows + [Row(n, e, prevHash, Digest(prevHash, n, e))];
      AppendAllMore(before, [], e);
      AllStay(before, [e]);
    }

    ghost predicate AllSound(r: seq<Row>)
      reads this
    {
      && Increasing(r) && (cached.Some? ==> Sound(r, cached.value))
      && (forall k :: 0 <= k < |walked| && walked[k].Some? ==> Sound(r, walked[k].value))
    }

    lemma AllStay(r: seq<Row>, es: seq<Entry>)
      requires AllSound(r)
      ensures AllSound(AppendAll(r, es))
    {
      AppendAllExtends(r, es);
      if cached.Some? {
        SoundStays(r, es, cached.value);
      }
      forall k | 0 <= k < |walked| && walked[k].Some?
        ensures Sound(AppendAll(r, es), walked[k].value)
      {
        SoundStays(r, es, walked[k].value);
      }
    }

    /** What other connections append while this one has yielded. */
    method Others(es: seq<Entry>)
      requires Stable()
      modifies this`rows
      ensures Stable() && rows == AppendAll(old(rows), es)
    {
      for k := 0 to |es|
        invariant Stable() && rows == AppendAll(old(rows), es[..k])
      {
        var _ := Append(es[k]);
        assert es[..k + 1] == es[..k] + [es[k]];
        AppendAllMore(old(rows), es[..k], es[k]);
      }
      assert es[..|es|] == es;
    }

    /** Streams the rows with `after < seq <= until` a page at a time; between full pages
        others append. Whatever the page size and whatever they append, the verdict is
        that of one scan of the log as it is when the walk ends. */
    method Walk(after: int, afterHash: Hash, until: Option<int>, collected: Kinds, page: nat, others: seq<seq<Entry>>)
      returns (status: Status, kinds: Kinds)
      requires Stable() && page >= 1
      modifies this`rows
      ensures Stable() && Grown(old(rows), rows) && (others == [] ==> rows == old(rows))
      ensures status == Scan(Window(rows, after, until), after, afterHash)
      ensures status.Valid? ==> kinds == KindsOf(Window(rows, after, until), collected)
    {
      hide Window, Scan, KindsOf, Reached, ReadTo, PageTo, Sound, Links;
      var prev, last := afterHash, after;
      kinds := collected;
      var turns := 0;
      StartReads(rows, after, afterHash, until, collected);
      SelfGrown(rows);
      while true
        invariant Stable() && turns <= |others| && Grown(old(rows), rows) && (turns == 0 ==> rows == old(rows))
        invariant ReadTo(rows, after, afterHash, until, collected, last, prev, kinds)
        decreases |others| - turns, |Window(rows, last, until)|
      {
        var rest := Window(rows, last, until);
        var n := if |rest| < page then |rest| else page;
        ghost var stored, last0, prev0, kinds0 := rows, last, prev, kinds;
        PageStarts(rest, last, prev, kinds);
        var inPage := 0;
        while inPage < n
          invariant rows == stored && 0 <= inPage <= n && PageTo(rest, inPage, last0, prev0, kinds0, last, prev, kinds)
        {
          var row := rest[inPage];
          ghost var kinds1 := kinds;
          kinds := AddKind(kinds, row.entry);
          if !Links(row, last, prev) {
            PageBreaks(rows, after, afterHash, until, collected, last0, prev0, kinds0, inPage, last, prev, kinds1);
            return Broken(row.seqNo), kinds;
          }
          PageNext(rest, inPage, last0, prev0, kinds0, last, prev, kinds1);
          prev, last := row.hash, row.seqNo;
          inPage := inPage + 1;
        }
        PageShort(rest, n, last0, prev0, kinds0, last, prev, kinds);
        PageReads(rows, after, afterHash, until, collected, last0, prev0, kinds0, n, last, prev, kinds);
        if inPage < page {
          break;
        }
        if turns < |others| {
          OthersRead(rows, others[turns], after, afterHash, until, collected, last, prev, kinds);
          GrownMore(old(rows), rows, others[turns]);
          Others(others[turns]);
          turns := turns + 1;
        }
      }
      ReadAll(rows, after, afterHash, until, collected, last, prev, kinds);
      status := Valid(last, prev);
    }

    /** Chain status for display, built on the cached head when the last full pass is
        recent; the cache stays locked for the whole call. The answer is the one a fresh
        walk would give on the log at that moment. */
    method Summary(now: int, page: nat, others: seq<seq<Entry>>, gap: seq<Entry>) returns (view: ChainView)
      requires Stable() && page >= 1
      modifies this`rows, this`cached
      ensures Stable() && Grown(old(rows), rows)
      ensures view.status == Fresh(rows)
      ensures view.status.Valid? ==> view.kinds == FreshKinds(rows)
      ensures view.status.Broken? ==>
                exists first :: Grown(old(rows), first) && rows == AppendAll(first, gap)
                                && view.kinds == QueriedKinds(first, rows)
    {
      hide Window, Scan, KindsOf, Sound, Increasing, AllKinds, PublicKinds;
      var taken := cached;
      cached := None;
      var status: Status;
      var kinds: Kinds;
      var fullAt: int;
      if taken.Some? && now - taken.value.fullAt < STALE_FULL_PASS {
        var v := taken.value;
        status, kinds := Walk(v.seqNo, v.head, None, v.kinds, page, others);
        fullAt := v.fullAt;
        GrownSound(old(rows), rows, v);
        IncrementalIsFresh(rows, v);
      } else {
        status, kinds := Walk(0, Genesis, None, map[], page, others);
        fullAt := now;
      }
      match status {
        case Valid(events, head) =>
          FreshIsSound(rows, fullAt);
          cached := Some(Verified(events, head, fullAt, kinds));
        case Broken(_) =>
          ghost var first := rows;
          var restricted := AllKinds(rows);
          BrokenStays(rows, gap);
          GrownMore(old(rows), rows, gap);
          Others(gap);
          kinds := map k | k in restricted :: false;
          kinds := kinds + map k | k in PublicKinds(rows) :: true;
          assert kinds == QueriedKinds(first, rows);
      }
      view := ChainView(status, kinds);
    }

    /** The background pass walks everything without the cache. */
    method RecheckWalk(now: int, page: nat, others: seq<seq<Entry>>) returns (status: Status)
      requires Stable() && page >= 1
      modifies this`rows, this`walked
      ensures Stable() && Grown(old(rows), rows) && status == Fresh(rows)
      ensures walked == old(walked) +
                [if status.Valid? then Some(Verified(status.events, status.head, now, FreshKinds(rows))) else None]
    {
      hide Window, Scan, KindsOf, Sound, Increasing;
      var kinds: Kinds;
      status, kinds := Walk(0, Genesis, None, map[], page, others);
      if status.Valid? {
        FreshIsSound(rows, now);
        walked := walked + [Some(Verified(status.events, status.head, now, kinds))];
      } else {
        walked := walked + [None];
      }
    }

    /** Later, under the lock, its verdict replaces the cache, whatever happened since. */
    method RecheckStore(k: nat)
      requires Stable() && k < |walked|
      modifies this`cached, this`walked
      ensures Stable() && cached == old(walked)[k] && walked == old(walked)[..k] + old(walked)[k + 1..]
    {
      hide Sound, Increasing;
      cached := walked[k];
      walked := walked[..k] + walked[k + 1..];
    }
  }

  /** The log only ever grows by appends. */
  ghost predicate Grown(before: seq<Row>, now: seq<Row>) { exists es :: now == AppendAll(before, es) }

  lemma SelfGrown(rows: seq<Row>)
    ensures Grown(rows, rows)
  {
    assert AppendAll(rows, []) == rows;
  }

  lemma {:induction false} AppendTwice(rows: seq<Row>, a: seq<Entry>, b: seq<Entry>)
    ensures AppendAll(AppendAll(rows, a), b) == AppendAll(rows, a + b)
  {
    if b == [] {
      assert a + b == a;
    } else {
      assert (a + b)[..|a + b| - 1] == a + b[..|b| - 1];
      AppendTwice(rows, a, b[..|b| - 1]);
    }
  }

  lemma GrownMore(before: seq<Row>, now: seq<Row>, es: seq<Entry>)
    requires Grown(before, now)
    ensures Grown(before, AppendAll(now, es))
  {
    var first :| now == AppendAll(before, first);
    AppendTwice(before, first, es);
  }

  lemma PageStarts(rest: seq<Row>, last: int, prev: Hash, kinds: Kinds)
    ensures PageTo(rest, 0, last, prev, kinds, last, prev, kinds)
  {
  }

  lemma PageShort(rest: seq<Row>, n: nat, last: int, prev: Hash, kinds: Kinds, last1: int, prev1: Hash, kinds1: Kinds)
    requires n <= |rest| && PageTo(rest, n, last, prev, kinds, last1, prev1, kinds1)
    ensures PageTo(rest[..n], n, last, prev, kinds, last1, prev1, kinds1)
  {
    assert rest[..n][..n] == rest[..n];
  }

  lemma GrownSound(before: seq<Row>, now: seq<Row>, v: Verified)
    requires Increasing(before) && Grown(before, now) && Sound(before, v)
    ensures Sound(now, v)
  {
    var es :| now == AppendAll(before, es);
    SoundStays(before, es, v);
  }

  /** Appending after a break never repairs it. */
  lemma BrokenStays(rows: seq<Row>, es: seq<Entry>)
    requires Increasing(rows) && Fresh(rows).Broken?
    ensures Fresh(AppendAll(rows, es)) == Fresh(rows)
  {
    AppendAllExtends(rows, es);
    var more := AppendAll(rows, es)[|rows|..];
    assert AppendAll(rows, es) == rows + more;
    WindowAppend(rows, more, 0, None);
    ScanAppend(Window(rows, 0, None), Window(more, 0, None), 0, Genesis);
  }

  /** When no row precedes the first sequence number, the kinds of a valid answer are
      the distinct kinds of the log in each scope. */
  lemma ValidKindsAreDistinct(rows: seq<Row>)
    requires forall k :: 0 <= k < |rows| ==> rows[k].seqNo >= 1
    ensures Shown(FreshKinds(rows), true) == AllKinds(rows)
    ensures Shown(FreshKinds(rows), false) == PublicKinds(rows)
  {
    PositiveWindow(rows);
    CollectedIsDistinct(rows);
  }

  lemma {:induction false} PositiveWindow(rows: seq<Row>)
    requires forall k :: 0 <= k < |rows| ==> rows[k].seqNo >= 1
    ensures Window(rows, 0, None) == rows
  {
    if rows != [] {
      PositiveWindow(rows[..|rows| - 1]);
      assert rows == rows[..|rows| - 1] + [rows[|rows| - 1]];
    }
  }
}
