/** The audit log: an append-only hash chain, its paged verification, the cache of the
    last verified head and the background recheck (src/application/audit.rs). The digest
    is an ideal one: a constructor, so equal digests come from equal inputs. */
module AuditChain {
  import opened Prelude

  datatype Entry = Entry(
    at: int, kind: string, public: bool, actor: Option<string>, subject: Option<string>, payload: string)

  /** `Other` is any text that is no digest: a stored column may hold anything. */
  datatype Hash = Genesis | Digest(prev: Hash, seqNo: int, entry: Entry) | Other(text: string)

  datatype Row = Row(seqNo: int, entry: Entry, prevHash: Hash, hash: Hash)

  datatype Status = Valid(events: int, head: Hash) | Broken(atSeq: int)

  /** `seq` is the primary key and rows are read in its order. */
  ghost predicate Increasing(rows: seq<Row>) { forall k, l :: 0 <= k < l < |rows| ==> rows[k].seqNo < rows[l].seqNo }

  // ------------------------------------------------------------ appending

  function LastSeq(rows: seq<Row>): int { if rows == [] then 0 else rows[|rows| - 1].seqNo }
  function LastHash(rows: seq<Row>): Hash { if rows == [] then Genesis else rows[|rows| - 1].hash }

  function NextRow(rows: seq<Row>, e: Entry): Row {
    var n := LastSeq(rows) + 1;
    Row(n, e, LastHash(rows), Digest(LastHash(rows), n, e))
  }

  function AppendEntry(rows: seq<Row>, e: Entry): seq<Row> { rows + [NextRow(rows, e)] }

  function AppendAll(rows: seq<Row>, es: seq<Entry>): seq<Row> {
    if es == [] then rows else AppendEntry(AppendAll(rows, es[..|es| - 1]), es[|es| - 1])
  }

  // ------------------------------------------------------------ verification as a function

  predicate Links(r: Row, last: int, prev: Hash) {
    r.seqNo == last + 1 && r.prevHash == prev && r.hash == Digest(prev, r.seqNo, r.entry)
  }

  /** The verdict on rows read after `last`, whose hash was `prev`. */
  function Scan(rows: seq<Row>, last: int, prev: Hash): Status {
    if rows == [] then Valid(last, prev)
    else if Links(rows[0], last, prev) then Scan(rows[1..], rows[0].seqNo, rows[0].hash)
    else Broken(rows[0].seqNo)
  }

  /** Event kind to whether any event of that kind is public. */
  type Kinds = map<string, bool>

  function AddKind(kinds: Kinds, e: Entry): Kinds {
    kinds[e.kind := (e.kind in kinds && kinds[e.kind]) || e.public]
  }

  function KindsOf(rows: seq<Row>, kinds: Kinds): Kinds {
    if rows == [] then kinds else AddKind(KindsOf(rows[..|rows| - 1], kinds), rows[|rows| - 1].entry)
  }

  /** Rows with `after < seq <= until`. */
  function Window(rows: seq<Row>, after: int, until: Option<int>): seq<Row> {
    if rows == [] then []
    else
      var r := rows[|rows| - 1];
      Window(rows[..|rows| - 1], after, until)
      + if after < r.seqNo && (until.Some? ==> r.seqNo <= until.value) then [r] else []
  }

  /** The whole chain verified from the start. */
  function Fresh(rows: seq<Row>): Status { Scan(Window(rows, 0, None), 0, Genesis) }

  function FreshKinds(rows: seq<Row>): Kinds { KindsOf(Window(rows, 0, None), map[]) }

  // ------------------------------------------------------------ facts about scanning

  lemma {:induction false} ScanAppend(a: seq<Row>, b: seq<Row>, last: int, prev: Hash)
    ensures Scan(a + b, last, prev) ==
            match Scan(a, last, prev)
            case Valid(events, head) => Scan(b, events, head)
            case Broken(s) => Broken(s)
  {
    if a == [] {
      assert a + b == b;
    } else {
      assert (a + b)[1..] == a[1..] + b;
      if Links(a[0], last, prev) {
        ScanAppend(a[1..], b, a[0].seqNo, a[0].hash);
      }
    }
  }

  lemma {:induction false} KindsAppend(a: seq<Row>, b: seq<Row>, kinds: Kinds)
    ensures KindsOf(a + b, kinds) == KindsOf(b, KindsOf(a, kinds))
  {
    if b == [] {
      assert a + b == a;
    } else {
      assert (a + b)[..|a + b| - 1] == a + b[..|b| - 1];
      KindsAppend(a, b[..|b| - 1], kinds);
    }
  }

  lemma {:induction false} WindowAppend(a: seq<Row>, b: seq<Row>, after: int, until: Option<int>)
    ensures Window(a + b, after, until) == Window(a, after, until) + Window(b, after, until)
  {
    if b == [] {
      assert a + b == a;
    } else {
      assert (a + b)[..|a + b| - 1] == a + b[..|b| - 1];
      WindowAppend(a, b[..|b| - 1], after, until);
    }
  }

  predicate Inside(r: Row, after: int, until: Option<int>) {
    after < r.seqNo && (until.Some? ==> r.seqNo <= until.value)
  }

  lemma {:induction false} WindowRows(rows: seq<Row>, after: int, until: Option<int>)
    ensures forall r :: r in Window(rows, after, until) <==> r in rows && Inside(r, after, until)
    ensures Increasing(rows) ==> Increasing(Window(rows, after, until))
  {
    if rows != [] {
      var init, r := rows[..|rows| - 1], rows[|rows| - 1];
      WindowRows(init, after, until);
      assert rows == init + [r];
      forall k, l | Increasing(rows) && 0 <= k < l < |Window(rows, after, until)|
        ensures Window(rows, after, until)[k].seqNo < Window(rows, after, until)[l].seqNo
      {
        if l == |Window(init, after, until)| {
          assert Window(rows, after, until)[k] in Window(init, after, until);
          assert r in rows;
        }
      }
    }
  }

  lemma {:induction false} WindowNone(rows: seq<Row>, after: int, until: Option<int>)
    requires forall k :: 0 <= k < |rows| ==> !Inside(rows[k], after, until)
    ensures Window(rows, after, until) == []
  {
    if rows != [] {
      WindowNone(rows[..|rows| - 1], after, until);
    }
  }

  /** A window splits at any inner bound. */
  lemma {:induction false} WindowSplit(rows: seq<Row>, after: int, mid: int, until: Option<int>)
    requires Increasing(rows) && after <= mid && (until.Some? ==> mid <= until.value)
    ensures Window(rows, after, until) == Window(rows, after, Some(mid)) + Window(rows, mid, until)
  {
    if rows != [] {
      var init, r := rows[..|rows| - 1], rows[|rows| - 1];
      WindowSplit(init, after, mid, until);
      if r.seqNo <= mid {
        WindowNone(init, mid, until);
      }
    }
  }

  /** A part of an increasing list whose rows are those below a bound is its prefix. */
  lemma PrefixLength(w: seq<Row>, a: seq<Row>, b: seq<Row>, n: nat)
    requires w == a + b && Increasing(w) && 0 < n <= |w|
    requires forall k :: 0 <= k < |a| ==> w[k].seqNo <= w[n - 1].seqNo
    requires forall k :: |a| <= k < |w| ==> w[n - 1].seqNo < w[k].seqNo
    ensures |a| == n && a == w[..n]
  {
    ghost var last := w[n - 1];
    assert !(|a| <= n - 1);
    assert n < |w| ==> last.seqNo < w[n].seqNo;
    assert !(n < |a|);
  }

  /** The rows before a page and the page together are a window. */
  lemma WindowPage(rows: seq<Row>, after: int, last: int, until: Option<int>, n: nat)
    requires Increasing(rows) && after <= last && 0 < n <= |Window(rows, last, until)|
             && (until.Some? ==> last <= until.value)
    ensures var page := Window(rows, last, until)[..n];
            var next := page[n - 1].seqNo;
            && last < next && (until.Some? ==> next <= until.value)
            && Window(rows, after, Some(next)) == Window(rows, after, Some(last)) + page
  {
    var w := Window(rows, last, until);
    var next := w[n - 1].seqNo;
    WindowRows(rows, last, until);
    assert w[n - 1] in w;
    WindowSplit(rows, last, next, until);
    WindowSplit(rows, after, last, Some(next));
    var a, b := Window(rows, last, Some(next)), Window(rows, next, until);
    WindowBelow(rows, last, next);
    WindowAbove(rows, next, until);
    hide Window, Increasing;
    assert forall k :: 0 <= k < |a| ==> w[k] == a[k];
    assert forall k :: |a| <= k < |w| ==> w[k] == b[k - |a|];
    PrefixLength(w, a, b, n);
  }

  lemma WindowBelow(rows: seq<Row>, after: int, until: int)
    ensures forall k :: 0 <= k < |Window(rows, after, Some(until))| ==>
              Window(rows, after, Some(until))[k].seqNo <= until
  {
    WindowRows(rows, after, Some(until));
    assert forall k :: 0 <= k < |Window(rows, after, Some(until))| ==>
             Window(rows, after, Some(until))[k] in Window(rows, after, Some(until));
  }

  lemma WindowAbove(rows: seq<Row>, after: int, until: Option<int>)
    ensures forall k :: 0 <= k < |Window(rows, after, until)| ==> after < Window(rows, after, until)[k].seqNo
  {
    WindowRows(rows, after, until);
    assert forall k :: 0 <= k < |Window(rows, after, until)| ==>
             Window(rows, after, until)[k] in Window(rows, after, until);
  }

  // ------------------------------------------------------------ appending leaves the past alone

  lemma {:induction false} AppendAllExtends(rows: seq<Row>, es: seq<Entry>)
    requires Increasing(rows)
    ensures Increasing(AppendAll(rows, es)) && rows <= AppendAll(rows, es)
    ensures forall k :: |rows| <= k < |AppendAll(rows, es)| ==>
              AppendAll(rows, es)[k].seqNo > LastSeq(rows) && (rows == [] ==> AppendAll(rows, es)[k].seqNo >= 1)
    ensures LastSeq(AppendAll(rows, es)) >= LastSeq(rows)
  {
    if es != [] {
      AppendAllExtends(rows, es[..|es| - 1]);
    }
  }

  lemma AppendAllMore(rows: seq<Row>, a: seq<Entry>, e: Entry)
    ensures AppendAll(rows, a + [e]) == AppendEntry(AppendAll(rows, a), e)
  {
    assert (a + [e])[..|a|] == a;
  }

  /** A bound that some stored row (or the start) has already reached. */
  ghost predicate Reached(rows: seq<Row>, after: int, last: int) {
    last == after || exists k :: 0 <= k < |rows| && rows[k].seqNo == last
  }

  /** Rows appended later never fall inside a window that was already read. */
  lemma ReadStays(rows: seq<Row>, es: seq<Entry>, after: int, last: int)
    requires Increasing(rows) && Reached(rows, after, last)
    ensures Window(AppendAll(rows, es), after, Some(last)) == Window(rows, after, Some(last))
    ensures Reached(AppendAll(rows, es), after, last)
  {
    hide Window, AppendAll, Increasing;
    AppendAllExtends(rows, es);
    var all := AppendAll(rows, es);
    var more := all[|rows|..];
    assert all == rows + more;
    WindowAppend(rows, more, after, Some(last));
    LastIsGreatest(rows);
    forall k | 0 <= k < |more|
      ensures !Inside(more[k], after, Some(last))
    {
      assert more[k] == all[|rows| + k];
    }
    WindowNone(more, after, Some(last));
    assert forall k :: 0 <= k < |rows| ==> all[k] == rows[k];
  }

  lemma LastIsGreatest(rows: seq<Row>)
    requires Increasing(rows)
    ensures forall k :: 0 <= k < |rows| ==> rows[k].seqNo <= LastSeq(rows)
  {
  }

  // ------------------------------------------------------------ one history per head

  lemma {:induction false} ScanLast(rows: seq<Row>, r: Row)
    requires Scan(rows + [r], 0, Genesis).Valid?
    ensures Scan(rows, 0, Genesis).Valid?
    ensures Links(r, Scan(rows, 0, Genesis).events, Scan(rows, 0, Genesis).head)
    ensures Scan(rows + [r], 0, Genesis) == Valid(r.seqNo, r.hash)
  {
    ScanAppend(rows, [r], 0, Genesis);
  }

  lemma {:induction false} ScanCounts(rows: seq<Row>)
    requires Scan(rows, 0, Genesis).Valid?
    ensures Scan(rows, 0, Genesis).events == |rows|
    ensures Scan(rows, 0, Genesis).head == Genesis <==> rows == []
  {
    if rows != [] {
      assert rows == rows[..|rows| - 1] + [rows[|rows| - 1]];
      ScanLast(rows[..|rows| - 1], rows[|rows| - 1]);
      ScanCounts(rows[..|rows| - 1]);
    }
  }

  /** Two histories that verify to the same head are the same history, row by row:
      the last digest fixes the last row and the digest before it. */
  lemma {:induction false} HeadFixesHistory(a: seq<Row>, b: seq<Row>)
    requires Scan(a, 0, Genesis).Valid? && Scan(b, 0, Genesis) == Scan(a, 0, Genesis)
    ensures a == b
  {
    ScanCounts(a);
    ScanCounts(b);
    if a != [] {
      var x, y := a[|a| - 1], b[|b| - 1];
      assert a == a[..|a| - 1] + [x] && b == b[..|b| - 1] + [y];
      ScanLast(a[..|a| - 1], x);
      ScanLast(b[..|b| - 1], y);
      ScanCounts(a[..|a| - 1]);
      ScanCounts(b[..|b| - 1]);
      HeadFixesHistory(a[..|a| - 1], b[..|b| - 1]);
    }
  }

  /** A log only ever written by `append` verifies. */
  lemma {:induction false} AppendedVerifies(es: seq<Entry>)
    ensures Fresh(AppendAll([], es)) == Valid(|es|, LastHash(AppendAll([], es)))
    ensures LastSeq(AppendAll([], es)) == |es| == |AppendAll([], es)|
    ensures Window(AppendAll([], es), 0, None) == AppendAll([], es)
  {
    if es != [] {
      var init, e := es[..|es| - 1], es[|es| - 1];
      AppendedVerifies(init);
      var rows := AppendAll([], init);
      WindowAppend(rows, [NextRow(rows, e)], 0, None);
      ScanAppend(rows, [NextRow(rows, e)], 0, Genesis);
    }
  }
}
