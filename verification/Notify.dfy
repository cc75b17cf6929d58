/** Scheduled notices (src/application/notify.rs, src/application/territory.rs): each is
    delivered once or cancelled, whatever happens between the rows of a pass, and the
    set-based delivery to a jurisdiction stores what a loop over its accounts would. */
module Notify {
  import opened Prelude
  import opened Electoral

  type Id = nat

  datatype Notice = Notice(event: string, title: string, body: string, link: Option<string>)
  datatype Audience = ToUser(user: Id) | ToJurisdiction(jurisdiction: Id)
  datatype Scheduled = Scheduled(key: string, audience: Audience, notice: Notice, dueAt: int, deliveredAt: Option<int>)
  datatype Stored = Stored(user: Id, notice: Notice, at: int)
  datatype User = User(municipality: Id, state: Id, country: Id, active: bool)

  /** Events with a preference; all others are always delivered. */
  predicate IsCategory(event: string) {
    event in {"proposal_created", "voting_opened", "deadline_reminder", "result_published", "phase_changed"}
  }

  /** Accounts, their disabled categories and the kind of each jurisdiction. */
  datatype People = People(users: map<Id, User>, disabled: set<(Id, string)>, kinds: map<Id, Level>) {
    predicate Mutes(u: Id, event: string) { IsCategory(event) && (u, event) in disabled }

    /** The account column a jurisdiction of this kind is stored in. */
    function Column(u: User, level: Level): Id {
      match level
      case Municipal => u.municipality
      case State => u.state
      case National => u.country
    }

    predicate TakesPart(u: User, j: Id) { u.municipality == j || u.state == j || u.country == j }

    /** Every account stores a municipality, a state and a country. */
    ghost predicate WellPlaced() {
      forall u :: u in users ==>
        && users[u].municipality in kinds && kinds[users[u].municipality].Municipal?
        && users[u].state in kinds && kinds[users[u].state].State?
        && users[u].country in kinds && kinds[users[u].country].National?
    }

    /** Active participants who did not mute the event. */
    function Recipients(j: Id, event: string): set<Id> {
      set u | u in users && users[u].active && TakesPart(users[u], j) && !Mutes(u, event)
    }

    /** The same accounts through the one column of the jurisdiction's kind. */
    function ByColumn(j: Id, event: string): set<Id> {
      if j !in kinds then {}
      else set u | u in users && users[u].active && Column(users[u], kinds[j]) == j && !Mutes(u, event)
    }
  }

  /** One column finds the participants the three-way test finds. */
  lemma ColumnFindsAll(people: People, j: Id, event: string)
    requires people.WellPlaced()
    ensures people.ByColumn(j, event) == people.Recipients(j, event)
  {
    forall u | u in people.users
      ensures people.TakesPart(people.users[u], j) <==>
                j in people.kinds && people.Column(people.users[u], people.kinds[j]) == j
    {
    }
  }

  /** Without that placement it may miss some: a jurisdiction of the wrong kind in a column. */
  lemma MisplacedIsMissed(j: Id, other: Id)
    requires j != other
    ensures var people := People(map[0 := User(j, other, other, true)], {}, map[j := State]);
            people.Recipients(j, "x") == {0} && people.ByColumn(j, "x") == {}
  {
    var people := People(map[0 := User(j, other, other, true)], {}, map[j := State]);
    assert 0 in people.Recipients(j, "x");
  }

  function Copies(us: set<Id>, notice: Notice, at: int): multiset<Stored> {
    multiset(set u | u in us :: Stored(u, notice, at))
  }

  lemma CopiesOneMore(us: set<Id>, u: Id, notice: Notice, at: int)
    requires u !in us
    ensures Copies(us + {u}, notice, at) == Copies(us, notice, at) + multiset{Stored(u, notice, at)}
  {
    var a := set x | x in us :: Stored(x, notice, at);
    var b := set x | x in us + {u} :: Stored(x, notice, at);
    assert b == a + {Stored(u, notice, at)};
    assert Stored(u, notice, at) !in a;
  }

  lemma CopiesCount(us: set<Id>, notice: Notice, at: int)
    ensures |Copies(us, notice, at)| == |us|
  {
    if us == {} {
      assert (set u | u in us :: Stored(u, notice, at)) == {};
    } else {
      var u :| u in us;
      CopiesCount(us - {u}, notice, at);
      CopiesOneMore(us - {u}, u, notice, at);
      assert us - {u} + {u} == us;
    }
  }

  /** What one scheduled row stores when it is delivered. */
  function Owed(people: People, audience: Audience, notice: Notice, at: int): multiset<Stored> {
    match audience
    case ToUser(u) => if people.Mutes(u, notice.event) then multiset{} else multiset{Stored(u, notice, at)}
    case ToJurisdiction(j) => Copies(people.Recipients(j, notice.event), notice, at)
  }

  /** Who gets what one row owes: its account, or every active account placed in its
      jurisdiction, once each; but nobody who disabled the category of the event. */
  lemma OwedIs(people: People, audience: Audience, notice: Notice, at: int, u: Id)
    ensures var muted := (u, notice.event) in people.disabled
                         && notice.event in {"proposal_created", "voting_opened", "deadline_reminder",
                                             "result_published",
                                             "phase_changed"};
            Owed(people, audience, notice, at)[Stored(u, notice, at)] ==
            match audience
            case ToUser(user) => if u == user && !muted then 1 else 0
            case ToJurisdiction(j) =>
              if !muted && u in people.users && people.users[u].active
                 && (people.users[u].municipality == j || people.users[u].state == j || people.users[u].country == j)
              then 1 else 0
    ensures forall x :: x in Owed(people, audience, notice, at) ==> x.notice == notice && x.at == at
  {
    match audience
    case ToUser(_) =>
    case ToJurisdiction(j) =>
      var us := people.Recipients(j, notice.event);
      var all := set x | x in us :: Stored(x, notice, at);
      assert u in us <==> Stored(u, notice, at) in all;
  }

  const BATCH: nat := 100

  // ------------------------------------------------------------ what the scheduler keeps

  /** The scheduled rows, the ids delivered so far in order, those cancelled, and the
      notices stored. */
  datatype Books = Books(
    rows: map<Id, Scheduled>, next: Id, sent: seq<Id>, cancelled: set<Id>, inbox: multiset<Stored>)

  /** Keys are unique, exactly the rows marked delivered were sent, each once, and a
      cancelled id is gone. */
  ghost predicate Consistent(b: Books) {
    && (forall i :: i in b.rows ==> i < b.next)
    && (forall i, j :: i in b.rows && j in b.rows && i != j ==> b.rows[i].key != b.rows[j].key)
    && (forall i :: i in b.rows ==> (b.rows[i].deliveredAt.Some? <==> i in b.sent))
    && (forall k :: 0 <= k < |b.sent| ==> b.sent[k] in b.rows)
    && (forall k, l :: 0 <= k < l < |b.sent| ==> b.sent[k] != b.sent[l])
    && (forall i :: i in b.cancelled ==> i < b.next && i !in b.rows)
  }

  /** A row only changes by being delivered, once. */
  predicate Moves(x: Scheduled, y: Scheduled) {
    y == x || (x.deliveredAt.None? && y == x.(deliveredAt := y.deliveredAt))
  }

  ghost predicate AllSent(rows: map<Id, Scheduled>, ids: seq<Id>) {
    forall k :: 0 <= k < |ids| ==> ids[k] in rows && rows[ids[k]].deliveredAt.Some?
  }

  /** What the delivered rows `ids` store. */
  ghost function Total(people: People, rows: map<Id, Scheduled>, ids: seq<Id>): multiset<Stored>
    requires AllSent(rows, ids)
  {
    if ids == [] then multiset{}
    else
      var row := rows[ids[|ids| - 1]];
      Total(people, rows, ids[..|ids| - 1]) + Owed(people, row.audience, row.notice, row.deliveredAt.value)
  }

  ghost predicate RowsGrew(a: Books, b: Books) {
    && a.next <= b.next && a.sent <= b.sent && a.cancelled <= b.cancelled
    && (forall i :: i in a.rows ==> i in b.cancelled || (i in b.rows && Moves(a.rows[i], b.rows[i])))
    && (forall i :: i in b.rows && i !in a.rows ==> a.next <= i)
  }

  /** From `a` to `b` rows were added, delivered or cancelled; what is stored more is what
      the rows delivered in between owe. */
  ghost predicate Grew(people: People, a: Books, b: Books) {
    && RowsGrew(a, b)
    && AllSent(b.rows, b.sent[|a.sent|..])
    && b.inbox == a.inbox + Total(people, b.rows, b.sent[|a.sent|..])
  }

  /** Whatever came in between, nothing cancelled is sent and nothing is sent twice. */
  lemma CancelledIsNeverSent(people: People, a: Books, b: Books, i: Id)
    requires Consistent(a) && Consistent(b) && Grew(people, a, b)
    ensures i in a.cancelled ==> i !in b.sent && i !in b.rows
    ensures i in a.sent ==> i in b.rows && b.rows[i] == a.rows[i] && i !in b.sent[|a.sent|..]
    ensures forall k, l :: 0 <= k < l < |b.sent| ==> b.sent[k] != b.sent[l]
  {
    if i in a.sent {
      var k :| 0 <= k < |a.sent| && a.sent[k] == i;
      assert b.sent[k] == i && i in b.rows;
    }
    hide Total;
  }

  lemma {:induction false} TotalFrozen(people: People, rows: map<Id, Scheduled>, later: map<Id, Scheduled>,
                                       ids: seq<Id>)
    requires AllSent(rows, ids) && AllSent(later, ids)
    requires forall k :: 0 <= k < |ids| ==> later[ids[k]] == rows[ids[k]]
    ensures Total(people, later, ids) == Total(people, rows, ids)
  {
    if ids != [] {
      TotalFrozen(people, rows, later, ids[..|ids| - 1]);
    }
  }

  lemma {:induction false} TotalJoin(people: People, rows: map<Id, Scheduled>, x: seq<Id>, y: seq<Id>)
    requires AllSent(rows, x) && AllSent(rows, y)
    ensures AllSent(rows, x + y) && Total(people, rows, x + y) == Total(people, rows, x) + Total(people, rows, y)
  {
    if y == [] {
      assert x + y == x;
    } else {
      assert (x + y)[..|x + y| - 1] == x + y[..|y| - 1];
      TotalJoin(people, rows, x, y[..|y| - 1]);
    }
  }

  lemma TotalMore(people: People, rows: map<Id, Scheduled>, ids: seq<Id>, id: Id)
    requires AllSent(rows, ids) && id in rows && rows[id].deliveredAt.Some?
    ensures AllSent(rows, ids + [id])
    ensures Total(people, rows, ids + [id]) ==
            Total(people, rows, ids) + Owed(people, rows[id].audience, rows[id].notice, rows[id].deliveredAt.value)
  {
    assert (ids + [id])[..|ids|] == ids;
    hide Owed;
  }

  lemma SentStays(people: People, b: Books, c: Books, ids: seq<Id>)
    requires Consistent(c) && Grew(people, b, c) && AllSent(b.rows, ids)
    requires forall k :: 0 <= k < |ids| ==> ids[k] in b.sent
    ensures AllSent(c.rows, ids) && Total(people, c.rows, ids) == Total(people, b.rows, ids)
    ensures forall k :: 0 <= k < |ids| ==> c.rows[ids[k]] == b.rows[ids[k]]
  {
    forall k | 0 <= k < |ids|
      ensures ids[k] in c.rows && c.rows[ids[k]] == b.rows[ids[k]]
    {
      assert ids[k] in b.sent;
      var l :| 0 <= l < |b.sent| && b.sent[l] == ids[k];
      assert c.sent[l] == ids[k];
    }
    hide Total;
    TotalFrozen(people, b.rows, c.rows, ids);
  }

  lemma GrewSelf(people: People, b: Books)
    ensures Grew(people, b, b)
  {
  }

  lemma RowsGrewTrans(a: Books, b: Books, c: Books)
    requires Consistent(b) && Consistent(c) && RowsGrew(a, b) && RowsGrew(b, c)
    ensures RowsGrew(a, c)
  {
  }

  lemma SentJoin(a: Books, b: Books, c: Books)
    requires a.sent <= b.sent <= c.sent
    ensures c.sent[|a.sent|..] == b.sent[|a.sent|..] + c.sent[|b.sent|..]
    ensures forall k :: 0 <= k < |b.sent[|a.sent|..]| ==> b.sent[|a.sent|..][k] in b.sent
  {
  }

  lemma GrewTrans(people: People, a: Books, b: Books, c: Books)
    requires Consistent(a) && Consistent(b) && Consistent(c) && Grew(people, a, b) && Grew(people, b, c)
    ensures Grew(people, a, c)
  {
    hide Total, AllSent, Consistent;
    RowsGrewTrans(a, b, c);
    SentJoin(a, b, c);
    var x, y := b.sent[|a.sent|..], c.sent[|b.sent|..];
    SentStays(people, b, c, x);
    TotalJoin(people, c.rows, x, y);
  }

  // ------------------------------------------------------------ single steps

  predicate Waits(b: Books, key: string, i: Id) { i in b.rows && b.rows[i].key == key && b.rows[i].deliveredAt.None? }

  function Scheduling(b: Books, row: Scheduled): Books { b.(rows := b.rows[b.next := row], next := b.next + 1) }

  lemma ScheduleGrows(people: People, b: Books, key: string, audience: Audience, notice: Notice, dueAt: int)
    requires Consistent(b) && forall i :: i in b.rows ==> b.rows[i].key != key
    ensures var c := Scheduling(b, Scheduled(key, audience, notice, dueAt, None)); Consistent(c) && Grew(people, b, c)
  {
    assert b.next !in b.rows;
  }

  function Cancelling(b: Books, key: string): Books {
    var gone := set i | i in b.rows && Waits(b, key, i);
    b.(rows := b.rows - gone, cancelled := b.cancelled + gone)
  }

  lemma CancelGrows(people: People, b: Books, key: string)
    requires Consistent(b)
    ensures Consistent(Cancelling(b, key)) && Grew(people, b, Cancelling(b, key))
  {
  }

  /** Delivering a row that waits; nothing for one that does not. */
  ghost function Delivering(people: People, b: Books, now: int, id: Id): Books {
    if id in b.rows && b.rows[id].deliveredAt.None? then
      var row := b.rows[id];
      b.(rows := b.rows[id := row.(deliveredAt := Some(now))], sent := b.sent + [id],
         inbox := b.inbox + Owed(people, row.audience, row.notice, now))
    else b
  }

  lemma DeliverGrows(people: People, b: Books, now: int, id: Id)
    requires Consistent(b)
    ensures Consistent(Delivering(people, b, now, id)) && Grew(people, b, Delivering(people, b, now, id))
  {
    var c := Delivering(people, b, now, id);
    if c != b {
      assert id !in b.sent && c.sent[|b.sent|..] == [id] && [id][..0] == [];
      assert c.inbox == b.inbox + Total(people, c.rows, [id]);
    }
    hide Owed;
  }

  // ------------------------------------------------------------ what is due

  /** Undelivered rows whose instant has come. */
  function DueIn(rows: map<Id, Scheduled>, now: int): set<Id> {
    set i | i in rows && rows[i].deliveredAt.None? && rows[i].dueAt <= now
  }

  /** Distinct due rows such that no row left out is due earlier. */
  ghost predicate Picked(rows: map<Id, Scheduled>, due: set<Id>, ids: seq<Id>)
    requires due <= rows.Keys
  {
    && (forall k, l :: 0 <= k < l < |ids| ==> ids[k] != ids[l])
    && (forall k :: 0 <= k < |ids| ==> ids[k] in due)
    && (forall k, j :: 0 <= k < |ids| && j in due && j !in ids ==> rows[ids[k]].dueAt <= rows[j].dueAt)
  }

  lemma EarliestExists(rows: map<Id, Scheduled>, s: set<Id>)
    requires s <= rows.Keys && s != {}
    ensures exists i :: i in s && forall j :: j in s ==> rows[i].dueAt <= rows[j].dueAt
  {
    var x :| x in s;
    if s == {x} {
    } else {
      EarliestExists(rows, s - {x});
      var i :| i in s - {x} && forall j :: j in s - {x} ==> rows[i].dueAt <= rows[j].dueAt;
      assert forall j :: j in s ==> j == x || j in s - {x};
      var least := if rows[x].dueAt <= rows[i].dueAt then x else i;
      assert least in s && forall j :: j in s ==> rows[least].dueAt <= rows[j].dueAt;
    }
  }

  lemma PickedMore(rows: map<Id, Scheduled>, due: set<Id>, ids: seq<Id>, i: Id)
    requires due <= rows.Keys && Picked(rows, due, ids) && i in due && i !in ids
    requires forall j :: j in due && j !in ids ==> rows[i].dueAt <= rows[j].dueAt
    ensures Picked(rows, due, ids + [i])
  {
  }

  function Ids(ids: seq<Id>): set<Id> { set i | i in ids }

  lemma PickedCount(due: set<Id>, ids: seq<Id>)
    requires forall k :: 0 <= k < |ids| ==> ids[k] in due
    requires forall k, l :: 0 <= k < l < |ids| ==> ids[k] != ids[l]
    ensures |due - Ids(ids)| == |due| - |ids|
    decreases |ids|
  {
    if ids == [] {
      assert due - Ids(ids) == due;
    } else {
      var init, x := ids[..|ids| - 1], ids[|ids| - 1];
      PickedCount(due, init);
      assert due - Ids(ids) == (due - Ids(init)) - {x};
      assert x in due - Ids(init);
    }
  }

  /** A pass at `at` takes a full batch of what was due at the earlier `now`, or all of it:
      the earliest rows come first. */
  lemma PickedTakesBatch(rows: map<Id, Scheduled>, now: int, at: int, ids: seq<Id>)
    requires now <= at && Picked(rows, DueIn(rows, at), ids) && |ids| == Min(BATCH, |DueIn(rows, at)|)
    ensures var left := DueIn(rows, now) - Ids(ids); left == {} || |left| == |DueIn(rows, now)| - BATCH
  {
    var left := DueIn(rows, now) - Ids(ids);
    if d :| d in left {
      assert d in DueIn(rows, at);
      PickedCount(DueIn(rows, at), ids);
      assert d in DueIn(rows, at) - Ids(ids);
      forall k | 0 <= k < |ids|
        ensures ids[k] in DueIn(rows, now)
      {
        assert rows[ids[k]].dueAt <= rows[d].dueAt;
      }
      PickedCount(DueIn(rows, now), ids);
    }
  }

  /** The rows after those of `ids` are marked delivered. */
  function Marked(rows: map<Id, Scheduled>, ids: seq<Id>, now: int): map<Id, Scheduled> {
    map i | i in rows :: if i in ids then rows[i].(deliveredAt := Some(now)) else rows[i]
  }

  // ------------------------------------------------------------ what others do

  /** What other requests and passes may do between two rows of a pass. */
  datatype Other =
    | OtherSchedule(key: string, audience: Audience, notice: Notice, dueAt: int)
    | OtherCancel(key: string)
    | OtherDelivery(now: int, id: Id)

  /** None of them schedules anything due at `now` or before. */
  predicate Later(others: seq<seq<Other>>, now: int) {
    forall k, l :: 0 <= k < |others| && 0 <= l < |others[k]| && others[k][l].OtherSchedule? ==> now < others[k][l].dueAt
  }

  predicate LaterGroup(group: seq<Other>, now: int) {
    forall l :: 0 <= l < |group| && group[l].OtherSchedule? ==> now < group[l].dueAt
  }

  /** Nothing new is due at `now`. */
  ghost predicate NoneAdded(a: Books, b: Books, now: int) { DueIn(b.rows, now) <= DueIn(a.rows, now) }

  /** What happens before a pass, its instant, and what happens inside it. */
  datatype Round = Round(between: seq<Other>, at: int, others: seq<seq<Other>>)

  /** Passes at `now` or after, with nothing else scheduled that is due at `now`. */
  predicate Follow(passes: seq<Round>, now: int) {
    forall k :: 0 <= k < |passes| ==>
      now <= passes[k].at && LaterGroup(passes[k].between, now) && Later(passes[k].others, now)
  }

  predicate Undelivered(b: Books, id: Id) { id in b.rows && b.rows[id].deliveredAt.None? }

  predicate Taken(b: Books, ids: seq<Id>) { forall i :: i in ids ==> i in b.sent || i in b.cancelled }

  /** The rows `mine` of `listed` were delivered at `now` by one pass between `a` and `b`,
      when they were due, and `stored` counts what they owe. */
  ghost predicate Delivers(people: People, a: Books, b: Books, now: int, listed: seq<Id>, mine: seq<Id>, stored: nat) {
    && (forall k, l :: 0 <= k < l < |mine| ==> mine[k] != mine[l])
    && (forall k :: 0 <= k < |mine| ==>
          && mine[k] in listed && mine[k] !in a.sent && mine[k] in b.sent && mine[k] in b.rows
          && b.rows[mine[k]].deliveredAt == Some(now) && b.rows[mine[k]].dueAt <= now)
    && AllSent(b.rows, mine) && stored == |Total(people, b.rows, mine)|
  }

  /** Nothing but the rows of `done` moved, all delivered at `now`. */
  ghost predicate QuietSoFar(a: Books, b: Books, now: int, done: seq<Id>) {
    && b.sent == a.sent + done && b.cancelled == a.cancelled && b.next == a.next
    && b.rows == Marked(a.rows, done, now)
  }

  lemma NothingAdded(b: Books)
    ensures forall at :: NoneAdded(b, b, at)
  {
  }

  lemma NoneAddedTrans(a: Books, b: Books, c: Books, at: int)
    requires NoneAdded(a, b, at) && NoneAdded(b, c, at)
    ensures NoneAdded(a, c, at)
  {
  }

  lemma GroupIsLater(others: seq<seq<Other>>, k: nat, at: int)
    requires k < |others| && Later(others, at)
    ensures LaterGroup(others[k], at)
  {
  }

  lemma DeliveredLess(people: People, b: Books, now: int, id: Id, at: int)
    ensures NoneAdded(b, Delivering(people, b, now, id), at)
  {
    hide Owed;
  }

  /** One other step adds nothing due at `at` unless it schedules it. */
  lemma OtherAdds(people: People, a: Books, b: Books, c: Books, other: Other, at: int)
    requires NoneAdded(a, b, at) && (other.OtherSchedule? ==> at < other.dueAt)
    requires match other
             case OtherSchedule(key, audience, notice, dueAt) =>
               c == b || c == Scheduling(b, Scheduled(key, audience, notice, dueAt, None))
             case OtherCancel(key) => c == Cancelling(b, key)
             case OtherDelivery(now, id) => c == Delivering(people, b, now, id)
    ensures NoneAdded(a, c, at)
  {
    hide Owed;
  }

  lemma GrewInbox(people: People, a: Books, b: Books)
    requires Grew(people, a, b)
    ensures |b.inbox| >= |a.inbox|
  {
    hide Total;
  }

  lemma PassStarts(people: People, b: Books, now: int, ids: seq<Id>)
    ensures Grew(people, b, b) && Taken(b, ids[..0]) && Delivers(people, b, b, now, ids[..0], [], 0)
    ensures QuietSoFar(b, b, now, ids[..0]) && forall at :: NoneAdded(b, b, at)
  {
    GrewSelf(people, b);
    assert Marked(b.rows, ids[..0], now) == b.rows;
  }

  lemma PassWaits(people: People, a: Books, b: Books, c: Books, now: int, done: seq<Id>, mine: seq<Id>, stored: nat)
    requires Consistent(b) && Consistent(c) && Grew(people, b, c)
    requires Taken(b, done) && Delivers(people, a, b, now, done, mine, stored)
    ensures Taken(c, done) && Delivers(people, a, c, now, done, mine, stored)
  {
    hide Total;
    SentStays(people, b, c, mine);
    assert forall i :: i in b.sent ==> i in c.sent;
    hide Consistent, Grew;
  }

  /** One more row of this pass. */
  lemma DeliversOne(people: People, a: Books, b: Books, c: Books, now: int, done: seq<Id>, id: Id, mine: seq<Id>,
                    stored: nat, n: nat)
    requires Delivers(people, a, c, now, done, mine, stored) && id !in done && id !in a.sent
    requires Undelivered(b, id) && c == Delivering(people, b, now, id) && |c.inbox| == |b.inbox| + n
    requires b.rows[id].dueAt <= now
    ensures Delivers(people, a, c, now, done + [id], mine + [id], stored + n)
  {
    hide Total, Owed, AllSent;
    TotalMore(people, c.rows, mine, id);
    assert forall i :: i in done ==> i in done + [id];
  }

  /** A listed row no longer waiting was sent or cancelled. */
  lemma ListedIsTaken(people: People, a: Books, b: Books, now: int, id: Id)
    requires Consistent(a) && Consistent(b) && Grew(people, a, b) && id in DueIn(a.rows, now)
    ensures id !in a.sent && (Undelivered(b, id) ==> b.rows[id].dueAt <= now)
    ensures !Undelivered(b, id) ==> id in b.sent || id in b.cancelled
  {
    hide Total;
  }

  lemma NextListed(rows: map<Id, Scheduled>, now: int, ids: seq<Id>, k: nat)
    requires k < |ids| && Picked(rows, DueIn(rows, now), ids)
    ensures ids[..k + 1] == ids[..k] + [ids[k]] && ids[k] in DueIn(rows, now) && ids[k] !in ids[..k]
  {
  }

  /** A listed row that is not waiting any more is passed over. */
  lemma PassesOver(people: People, a: Books, b: Books, c: Books, now: int, done: seq<Id>, id: Id, mine: seq<Id>,
                   stored: nat, n: nat)
    requires Taken(c, done) && Delivers(people, a, c, now, done, mine, stored)
    requires !Undelivered(b, id) && (id in b.sent || id in b.cancelled)
    requires c == Delivering(people, b, now, id) && |c.inbox| == |b.inbox| + n
    ensures Taken(c, done + [id]) && Delivers(people, a, c, now, done + [id], mine, stored + n)
  {
    hide Total, Owed, AllSent;
    assert forall i :: i in done ==> i in done + [id];
  }

  lemma TakesOne(people: People, b: Books, c: Books, now: int, done: seq<Id>, id: Id)
    requires Taken(c, done) && Undelivered(b, id) && c == Delivering(people, b, now, id)
    ensures Taken(c, done + [id])
  {
    hide Total, Owed;
  }

  lemma PassMoves(people: People, a: Books, b: Books, c: Books, now: int, ids: seq<Id>, k: nat, mine: seq<Id>,
                  stored: nat, n: nat)
    requires Consistent(a) && Consistent(b) && Consistent(c) && Grew(people, a, b) && Grew(people, b, c)
    requires k < |ids| && Picked(a.rows, DueIn(a.rows, now), ids)
    requires c == Delivering(people, b, now, ids[k]) && |c.inbox| == |b.inbox| + n
    requires Taken(b, ids[..k]) && Delivers(people, a, b, now, ids[..k], mine, stored)
    ensures Taken(c, ids[..k + 1])
    ensures Delivers(people, a, c, now, ids[..k + 1], if Undelivered(b, ids[k]) then mine + [ids[k]] else mine,
                     stored + n)
  {
    hide *;
    var id := ids[k];
    NextListed(a.rows, now, ids, k);
    PassWaits(people, a, b, c, now, ids[..k], mine, stored);
    ListedIsTaken(people, a, b, now, id);
    if Undelivered(b, id) {
      DeliversOne(people, a, b, c, now, ids[..k], id, mine, stored, n);
      TakesOne(people, b, c, now, ids[..k], id);
    } else {
      PassesOver(people, a, b, c, now, ids[..k], id, mine, stored, n);
    }
  }

  lemma QuietMoves(people: People, a: Books, b: Books, c: Books, now: int, ids: seq<Id>, k: nat)
    requires k < |ids| && Consistent(a) && QuietSoFar(a, b, now, ids[..k]) && Picked(a.rows, DueIn(a.rows, now), ids)
    requires c == Delivering(people, b, now, ids[k])
    ensures QuietSoFar(a, c, now, ids[..k + 1]) && Undelivered(b, ids[k])
  {
    hide Owed, Picked;
    NextListed(a.rows, now, ids, k);
  }

  lemma QuietEnds(a: Books, b: Books, now: int, ids: seq<Id>)
    requires QuietSoFar(a, b, now, ids)
    ensures DueIn(b.rows, now) == DueIn(a.rows, now) - Ids(ids) && b.rows == Marked(a.rows, ids, now)
    ensures b.sent == a.sent + ids && b.cancelled == a.cancelled && b.next == a.next
  {
  }

  /** A pass leaves nothing of what it listed due. */
  lemma PassDrains(a: Books, b: Books, now: int, at: int, ids: seq<Id>)
    requires Consistent(b) && Taken(b, ids) && NoneAdded(a, b, now)
    requires now <= at && Picked(a.rows, DueIn(a.rows, at), ids) && |ids| == Min(BATCH, |DueIn(a.rows, at)|)
    ensures DueIn(b.rows, now) == {} || |DueIn(b.rows, now)| <= |DueIn(a.rows, now)| - BATCH
  {
    PickedTakesBatch(a.rows, now, at, ids);
    var left := DueIn(a.rows, now) - Ids(ids);
    assert DueIn(b.rows, now) <= left;
    SubsetSize(DueIn(b.rows, now), left);
  }

  /** What was due and no longer is was sent or cancelled. */
  lemma DrainedIsTaken(people: People, a: Books, b: Books, now: int, i: Id)
    requires Consistent(a) && Consistent(b) && Grew(people, a, b) && i in DueIn(a.rows, now) && i !in DueIn(b.rows, now)
    ensures i in b.sent || i in b.cancelled
  {
    hide Total;
  }

  class Notifier {
    const people: People
    var scheduled: map<Id, Scheduled>
    var inbox: multiset<Stored>
    var next: Id
    /** Scheduled rows in the order they were delivered. */
    ghost var sent: seq<Id>
    ghost var cancelled: set<Id>

    ghost function State(): Books
      reads this
    {
      Books(scheduled, next, sent, cancelled, inbox)
    }

    ghost predicate Valid()
      reads this
    {
      people.WellPlaced() && Consistent(State())
    }

    constructor (people: People)
      requires people.WellPlaced()
      ensures Valid() && this.people == people && State() == Books(map[], 0, [], {}, multiset{})
    {
      this.people, scheduled, inbox, next, sent, cancelled := people, map[], multiset{}, 0, [], {};
    }

    /** Idempotent by key: false when the key was already scheduled, delivered or not. */
    method Schedule(key: string, audience: Audience, notice: Notice, dueAt: int) returns (added: bool)
      requires Valid()
      modifies this`scheduled, this`next
      ensures Valid() && Grew(people, old(State()), State())
      ensures added <==> forall i :: i in old(scheduled) ==> old(scheduled)[i].key != key
      ensures State() == if added then Scheduling(old(State()), Scheduled(key, audience, notice, dueAt, None))
                else old(State())
      ensures added ==>
                && old(next) !in old(scheduled) && next > old(next)
                && scheduled == old(scheduled)[old(next) := Scheduled(key, audience, notice, dueAt, None)]
    {
      if exists i :: i in scheduled && scheduled[i].key == key {
        GrewSelf(people, State());
        return false;
      }
      ScheduleGrows(people, State(), key, audience, notice, dueAt);
      scheduled := scheduled[next := Scheduled(key, audience, notice, dueAt, None)];
      next := next + 1;
      added := true;
    }

    /** Drops an undelivered row. */
    method Cancel(key: string) returns (dropped: bool)
      requires Valid()
      modifies this`scheduled, this`cancelled
      ensures Valid() && Grew(people, old(State()), State())
      ensures State() == Cancelling(old(State()), key)
      ensures dropped <==> exists i :: i in old(scheduled) && i !in scheduled
      ensures forall i :: i in old(scheduled) ==>
                var waits := old(scheduled)[i].key == key && old(scheduled)[i].deliveredAt.None?;
                if waits then i !in scheduled && i in cancelled
                else i in scheduled && scheduled[i] == old(scheduled)[i] && i !in cancelled
      ensures forall i :: i in scheduled || i in cancelled ==> i in old(scheduled) || i in old(cancelled)
    {
      CancelGrows(people, State(), key);
      hide Consistent, Grew;
      var gone := set i | i in scheduled && scheduled[i].key == key && scheduled[i].deliveredAt.None?;
      assert gone == set i | i in scheduled && Waits(State(), key, i);
      dropped := gone != {};
      assert dropped ==> exists i :: i in gone;
      scheduled, cancelled := scheduled - gone, cancelled + gone;
    }

    /** Stores one notice unless the account muted its category. */
    method Deliver(now: int, u: Id, notice: Notice) returns (stored: bool)
      modifies this`inbox
      ensures stored == !people.Mutes(u, notice.event)
      ensures inbox == old(inbox) + if stored then multiset{Stored(u, notice, now)} else multiset{}
    {
      if IsCategory(notice.event) && (u, notice.event) in people.disabled {
        return false;
      }
      inbox := inbox + multiset{Stored(u, notice, now)};
      stored := true;
    }

    /** One statement for a whole jurisdiction, through the column of its kind. */
    method FanOut(now: int, j: Id, notice: Notice) returns (n: nat)
      requires people.WellPlaced()
      modifies this`inbox
      ensures inbox == old(inbox) + Copies(people.Recipients(j, notice.event), notice, now)
      ensures n == |people.Recipients(j, notice.event)|
    {
      ColumnFindsAll(people, j, notice.event);
      var us := people.ByColumn(j, notice.event);
      inbox := inbox + multiset(set u | u in us :: Stored(u, notice, now));
      n := |us|;
    }

    /** The loop it stands for: each active participant in turn, tested on all three columns. */
    method DeliverOneByOne(now: int, j: Id, notice: Notice) returns (n: nat)
      modifies this`inbox
      ensures inbox == old(inbox) + Copies(people.Recipients(j, notice.event), notice, now)
      ensures n == |people.Recipients(j, notice.event)|
    {
      n := 0;
      var left := people.users.Keys;
      ghost var done: set<Id> := {};
      while left != {}
        invariant left <= people.users.Keys
        invariant done == set u | u in people.Recipients(j, notice.event) && u !in left
        invariant inbox == old(inbox) + Copies(done, notice, now) && n == |done|
        decreases left
      {
        var u :| u in left;
        left := left - {u};
        if people.users[u].active && people.TakesPart(people.users[u], j) {
          var stored := Deliver(now, u, notice);
          if stored {
            CopiesOneMore(done, u, notice, now);
            assert done + {u} == set x | x in people.Recipients(j, notice.event) && x !in left;
            done := done + {u};
            n := n + 1;
          } else {
            assert done == set x | x in people.Recipients(j, notice.event) && x !in left;
          }
        } else {
          assert done == set x | x in people.Recipients(j, notice.event) && x !in left;
        }
      }
      assert done == people.Recipients(j, notice.event);
    }

    function Due(now: int): set<Id>
      reads this
    {
      DueIn(scheduled, now)
    }

    /** The earliest due rows, at most one batch. */
    method FirstDue(now: int) returns (ids: seq<Id>)
      ensures Picked(scheduled, Due(now), ids) && |ids| == Min(BATCH, |Due(now)|)
    {
      ids := [];
      var left := Due(now);
      while left != {} && |ids| < BATCH
        invariant left <= Due(now) && |ids| + |left| == |Due(now)| && |ids| <= BATCH
        invariant forall i :: i in ids <==> i in Due(now) - left
        invariant Picked(scheduled, Due(now), ids)
        decreases left
      {
        EarliestExists(scheduled, left);
        var i :| i in left && forall j :: j in left ==> scheduled[i].dueAt <= scheduled[j].dueAt;
        assert Due(now) - (left - {i}) == Due(now) - left + {i};
        PickedMore(scheduled, Due(now), ids, i);
        ids := ids + [i];
        left := left - {i};
      }
    }

    /** One row in its own transaction: re-checked, delivered and marked. A row delivered
        or cancelled since it was listed is passed over. */
    method DeliverRow(now: int, id: Id) returns (stored: nat)
      requires Valid()
      modifies this`scheduled, this`inbox, this`sent
      ensures Valid() && Grew(people, old(State()), State())
      ensures State() == Delivering(people, old(State()), now, id)
      ensures if id in old(scheduled) && old(scheduled)[id].deliveredAt.None? then
                var row := old(scheduled)[id];
                && scheduled == old(scheduled)[id := row.(deliveredAt := Some(now))] && sent == old(sent) + [id]
                && inbox == old(inbox) + Owed(people, row.audience, row.notice, now)
              else State() == old(State())
      ensures |inbox| == |old(inbox)| + stored
    {
      DeliverGrows(people, State(), now, id);
      if id !in scheduled || scheduled[id].deliveredAt.Some? {
        return 0;
      }
      var item := scheduled[id];
      match item.audience {
        case ToUser(u) =>
          var one := Deliver(now, u, item.notice);
          stored := if one then 1 else 0;
        case ToJurisdiction(j) =>
          CopiesCount(people.Recipients(j, item.notice.event), item.notice, now);
          stored := FanOut(now, j, item.notice);
      }
      scheduled := scheduled[id := item.(deliveredAt := Some(now))];
      sent := sent + [id];
    }

    /** What others commit between two transactions of a pass. */
    method Others(group: seq<Other>)
      requires Valid()
      modifies this`scheduled, this`inbox, this`sent, this`next, this`cancelled
      ensures Valid() && Grew(people, old(State()), State())
      ensures forall at :: LaterGroup(group, at) ==> NoneAdded(old(State()), State(), at)
    {
      hide Consistent, Grew, Scheduling, Cancelling, Delivering, NoneAdded;
      ghost var before := State();
      GrewSelf(people, before);
      assert forall at :: NoneAdded(before, before, at) by {
        NothingAdded(before);
      }
      for k := 0 to |group|
        invariant Valid() && Grew(people, before, State())
        invariant forall at :: LaterGroup(group, at) ==> NoneAdded(before, State(), at)
      {
        ghost var was := State();
        match group[k] {
          case OtherSchedule(key, audience, notice, dueAt) =>
            var _ := Schedule(key, audience, notice, dueAt);
          case OtherCancel(key) =>
            var _ := Cancel(key);
          case OtherDelivery(at, id) =>
            var _ := DeliverRow(at, id);
        }
        GrewTrans(people, before, was, State());
        forall at | LaterGroup(group, at)
          ensures NoneAdded(before, State(), at)
        {
          OtherAdds(people, before, was, State(), group[k], at);
        }
      }
    }

    /** One pass. The due rows are listed once and taken one by one, each in its own
        transaction; between them others schedule, cancel and deliver. Every listed row
        ends sent or cancelled; those this pass delivered are told apart in `mine`. */
    method RemindDue(now: int, others: seq<seq<Other>>)
      returns (stored: nat, ghost picked: seq<Id>, ghost mine: seq<Id>)
      requires Valid()
      modifies this`scheduled, this`inbox, this`sent, this`next, this`cancelled
      ensures Valid() && Grew(people, old(State()), State())
      ensures Picked(old(scheduled), old(Due(now)), picked) && |picked| == Min(100, |old(Due(now))|)
      ensures forall i :: i in old(Due(now)) <==>
                && i in old(scheduled) && old(scheduled)[i].deliveredAt.None? && old(scheduled)[i].dueAt <= now
      ensures Taken(State(), picked)
      ensures Delivers(people, old(State()), State(), now, picked, mine, stored)
      ensures forall at :: Later(others, at) ==> NoneAdded(old(State()), State(), at)
      ensures |inbox| >= |old(inbox)| + stored && (others == [] ==> |inbox| == |old(inbox)| + stored)
      ensures others == [] ==>
                && mine == picked && sent == old(sent) + picked && cancelled == old(cancelled) && next == old(next)
                && scheduled == Marked(old(scheduled), picked, now) && Due(now) == old(Due(now)) - Ids(picked)
    {
      hide Consistent, Grew, Picked, Delivering, Delivers, Later, LaterGroup, NoneAdded, Marked, Undelivered, Owed,
           Total, AllSent, Taken, QuietSoFar;
      ghost var before := State();
      var ids := FirstDue(now);
      picked, mine, stored := ids, [], 0;
      var turn := 0;
      PassStarts(people, before, now, ids);
      for k := 0 to |ids|
        invariant Valid() && Grew(people, before, State()) && turn <= |others|
        invariant Taken(State(), ids[..k])
        invariant Delivers(people, before, State(), now, ids[..k], mine, stored)
        invariant forall at :: Later(others, at) ==> NoneAdded(before, State(), at)
        invariant |inbox| >= |before.inbox| + stored && (others == [] ==> |inbox| == |before.inbox| + stored)
        invariant others == [] ==> QuietSoFar(before, State(), now, ids[..k]) && mine == ids[..k]
      {
        ghost var was := State();
        if turn < |others| {
          Others(others[turn]);
          GrewTrans(people, before, was, State());
          GrewInbox(people, was, State());
          PassWaits(people, before, was, State(), now, ids[..k], mine, stored);
          forall at | Later(others, at)
            ensures NoneAdded(before, State(), at)
          {
            GroupIsLater(others, turn, at);
            NoneAddedTrans(before, was, State(), at);
          }
          turn := turn + 1;
        }
        ghost var here := State();
        var n := DeliverRow(now, ids[k]);
        GrewTrans(people, before, here, State());
        PassMoves(people, before, here, State(), now, ids, k, mine, stored, n);
        forall at | Later(others, at)
          ensures NoneAdded(before, State(), at)
        {
          DeliveredLess(people, here, now, ids[k], at);
          NoneAddedTrans(before, here, State(), at);
        }
        if others == [] {
          QuietMoves(people, before, here, State(), now, ids, k);
        }
        mine := if Undelivered(here, ids[k]) then mine + [ids[k]] else mine;
        stored := stored + n;
      }
      assert ids[..|ids|] == ids;
      if others == [] {
        QuietEnds(before, State(), now, ids);
      }
    }
 
    /** Repeated passes empty the backlog in spite of the batch limit, whatever is cancelled,
        delivered or scheduled for later meanwhile. */
    method Drain(now: int, passes: seq<Round>) returns (stored: nat)
      requires Valid() && Follow(passes, now)
      modifies this`scheduled, this`inbox, this`sent, this`next, this`cancelled
      ensures Valid() && Grew(people, old(State()), State())
      ensures |old(Due(now))| <= 100 * |passes| ==> Due(now) == {}
      ensures |old(Due(now))| <= 100 * |passes| ==>
                forall i <- old(scheduled) ::
                  var row := old(scheduled)[i];
                  row.deliveredAt.None? && row.dueAt <= now ==> i in sent || i in cancelled
      ensures |inbox| >= |old(inbox)| + stored
    {
      hide Consistent, Grew, Picked, Taken, Delivers, Later, LaterGroup, NoneAdded;
      ghost var before := State();
      GrewSelf(people, before);
      NothingAdded(before);
      stored := 0;
      for k := 0 to |passes|
        invariant Valid() && Grew(people, before, State())
        invariant Due(now) == {} || |Due(now)| <= |DueIn(before.rows, now)| - BATCH * k
        invariant |inbox| >= |before.inbox| + stored
      {
        ghost var was := State();
        Others(passes[k].between);
        GrewTrans(people, before, was, State());
        GrewInbox(people, was, State());
        ghost var here := State();
        AddedSize(was, here, now);
        var n, picked, _ := RemindDue(passes[k].at, passes[k].others);
        GrewTrans(people, before, here, State());
        PassDrains(here, State(), now, passes[k].at, picked);
        stored := stored + n;
      }
      forall i | i in DueIn(before.rows, now) && Due(now) == {}
        ensures i in sent || i in cancelled
      {
        DrainedIsTaken(people, before, State(), now, i);
      }
    }
  }

  lemma AddedSize(a: Books, b: Books, now: int)
    requires NoneAdded(a, b, now)
    ensures |DueIn(b.rows, now)| <= |DueIn(a.rows, now)| && (DueIn(a.rows, now) == {} ==> DueIn(b.rows, now) == {})
  {
    SubsetSize(DueIn(b.rows, now), DueIn(a.rows, now));
  }
}
