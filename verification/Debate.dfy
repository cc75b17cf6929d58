/** Comment threads (src/application/debate.rs): how replies are placed, and the display
    order computed with an explicit stack. */
module Debate {
  import opened Prelude
  import opened Electoral
  import opened Territory
  import opened Tables
  import opened Integrity
  import opened RateLimit
  import opened Timing

  datatype Comment = Comment(
    id: Id, proposal: Id, author: Id, parent: Option<Id>, root: Id, depth: nat, removed: bool, body: string)

  const MAX_DEPTH: nat := 2
  const RATE_WINDOW: int := 600_000
  const RATE_LIMIT: nat := 10
  const AMENDMENT_WINDOW: int := 86_400_000
  const AMENDMENT_LIMIT: nat := 5

  // ------------------------------------------------------------ placement

  ghost predicate DistinctIds(cs: seq<Comment>) { forall k, l :: 0 <= k < l < |cs| ==> cs[k].id != cs[l].id }

  /** `c` is a reply to the earlier comment `p`. */
  predicate Replies(c: Comment, p: Comment) {
    && c.parent == Some(p.id) && c.proposal == p.proposal && c.root == p.root && c.depth == p.depth + 1 <= MAX_DEPTH
  }

  predicate Tops(c: Comment) { c.parent.None? && c.depth == 0 && c.root == c.id }

  ghost predicate Placed(cs: seq<Comment>, k: int)
    requires 0 <= k < |cs|
  {
    Tops(cs[k]) || exists j :: 0 <= j < k && Replies(cs[k], cs[j])
  }

  ghost predicate WellBuilt(cs: seq<Comment>) { DistinctIds(cs) && forall k :: 0 <= k < |cs| ==> Placed(cs, k) }

  /** The position of the comment replied to. */
  ghost function ParentAt(cs: seq<Comment>, k: nat): (j: nat)
    requires WellBuilt(cs) && k < |cs| && cs[k].parent.Some?
    ensures j < k && cs[j].id == cs[k].parent.value && Replies(cs[k], cs[j])
  {
    assert Placed(cs, k);
    var j :| 0 <= j < k && Replies(cs[k], cs[j]);
    j
  }

  /** Replies between a comment and the top of its thread, counted by walking up. */
  ghost function TrueDepth(cs: seq<Comment>, k: nat): nat
    requires WellBuilt(cs) && k < |cs|
  {
    if cs[k].parent.None? then 0 else TrueDepth(cs, ParentAt(cs, k)) + 1
  }

  ghost function TrueRoot(cs: seq<Comment>, k: nat): (r: nat)
    requires WellBuilt(cs) && k < |cs|
    ensures r < |cs|
  {
    if cs[k].parent.None? then k else TrueRoot(cs, ParentAt(cs, k))
  }

  /** The stored depth and root are those of the tree, and no thread is deeper than two
      replies. */
  lemma {:induction false} StoredIsTrue(cs: seq<Comment>, k: nat)
    requires WellBuilt(cs) && k < |cs|
    ensures cs[k].depth == TrueDepth(cs, k) <= MAX_DEPTH
    ensures cs[k].root == cs[TrueRoot(cs, k)].id && cs[TrueRoot(cs, k)].parent.None?
    ensures cs[k].proposal == cs[TrueRoot(cs, k)].proposal
  {
    assert Placed(cs, k);
    if cs[k].parent.Some? {
      StoredIsTrue(cs, ParentAt(cs, k));
    }
  }

  lemma PlacedStays(cs: seq<Comment>, c: Comment)
    requires WellBuilt(cs) && forall k :: 0 <= k < |cs| ==> cs[k].id != c.id
    requires Tops(c) || exists j :: 0 <= j < |cs| && Replies(c, cs[j])
    ensures WellBuilt(cs + [c])
  {
    var more := cs + [c];
    forall k | 0 <= k < |more|
      ensures Placed(more, k)
    {
      if k < |cs| {
        assert Placed(cs, k);
        if !Tops(cs[k]) {
          var j :| 0 <= j < k && Replies(cs[k], cs[j]);
          assert Replies(more[k], more[j]);
        }
      } else if !Tops(c) {
        var j :| 0 <= j < |cs| && Replies(c, cs[j]);
        assert Replies(more[k], more[j]);
      }
    }
  }

  /** Text and visibility are the only columns an update may touch. */
  lemma RewrittenStays(cs: seq<Comment>, n: nat, body: string, removed: bool)
    requires WellBuilt(cs) && n < |cs|
    ensures WellBuilt(cs[n := cs[n].(body := body, removed := removed)])
  {
    var now := cs[n := cs[n].(body := body, removed := removed)];
    forall k | 0 <= k < |now|
      ensures Placed(now, k)
    {
      assert Placed(cs, k);
      if !Tops(cs[k]) {
        var j :| 0 <= j < k && Replies(cs[k], cs[j]);
        assert Replies(now[k], now[j]);
      }
    }
  }

  // ------------------------------------------------------------ who may write

  /** The account that posts: its permission and the jurisdictions it takes part in. */
  datatype Caller = Caller(user: Id, mayComment: bool, places: set<Id>)

  /** What a debate hangs on: the proposal's row, if there is one, and its lock. */
  datatype Venue = Venue(row: Option<Proposal>, locked: bool)

  predicate StatusTakes(status: Status, amendment: bool) {
    status.Collecting? || status.InDebate? || (status.InVoting? && !amendment)
  }

  /** The status accepts posts and the stored deadline, if any, has not passed. */
  predicate PhaseOpen(p: Proposal, now: int, amendment: bool) {
    StatusTakes(p.status, amendment) && (CurrentDeadline(p).Some? ==> now < CurrentDeadline(p).value)
  }

  /** On stored data that satisfies the invariant comments are open exactly in the phases of
      a published proposal that are not due, amendments not while it is voted. */
  lemma PhaseOpenIff(t: Tables, i: Id, now: int, amendment: bool)
    requires i in t.proposals && Integrity.Valid(t)
    ensures var p := t.proposals[i];
            PhaseOpen(p, now, amendment) <==>
              IsOpen(p.status) && !p.status.Draft? && !RowDue(p, now) && !(amendment && p.status.InVoting?)
    ensures StatusTakes(t.proposals[i].status, amendment) ==> t.proposals[i].publishedAt.Some?
  {
    hide Integrity.Valid;
    RowIsOk(t, i);
    hide CollectionOk, VoteOk;
  }

  /** Refused before anything is read. */
  function Gate(enabled: bool, caller: Caller): Option<Error> {
    if !enabled then Some(FeatureDisabled) else if !caller.mayComment then Some(Forbidden) else None
  }

  /** Why nothing can be written to the debate now. */
  function Blocked(v: Venue, caller: Caller, now: int, amendment: bool): Option<Error> {
    if v.row.None? || v.row.value.publishedAt.None? then Some(NotFound)
    else if !PhaseOpen(v.row.value, now, amendment) then Some(PhaseClosed)
    else if v.locked then Some(Conflict(DebateLocked))
    else if !caller.mayComment || v.row.value.jurisdiction !in caller.places then Some(Forbidden)
    else None
  }

  predicate HasId(cs: seq<Comment>, k: nat, id: Id) { k < |cs| && cs[k].id == id }

  /** The comment with that id. */
  ghost function Row(cs: seq<Comment>, id: Id): (c: Option<Comment>)
    ensures c.Some? ==> c.value in cs && c.value.id == id
    ensures c.None? ==> forall k: nat :: !HasId(cs, k, id)
  {
    if exists k: nat :: HasId(cs, k, id) then
      var k: nat :| HasId(cs, k, id);
      Some(cs[k])
    else None
  }

  /** Why a reply cannot be placed. */
  ghost function Misplaced(cs: seq<Comment>, proposal: Id, parent: Option<Id>): Option<Error> {
    if parent.None? then None
    else
      match Row(cs, parent.value)
      case None => Some(NotFound)
      case Some(p) =>
        if p.proposal != proposal then Some(NotFound)
        else if p.removed then Some(Conflict(RemovedComment))
        else if p.depth >= MAX_DEPTH then Some(Validation)
        else None
  }

  predicate RateIsFull(writes: seq<Write>, author: Id, now: int) {
    Recent(writes, author, now - RATE_WINDOW) >= RATE_LIMIT
  }

  /** Why an edit is refused; `Ok(false)` when it would change nothing. */
  ghost function EditOutcome(cs: seq<Comment>, writes: seq<Write>, now: int, enabled: bool, caller: Caller, id: Id,
                             body: string, venue: Venue): Result<bool>
  {
    if Gate(enabled, caller).Some? then Err(Gate(enabled, caller).value) else
    match Row(cs, id)
    case None => Err(NotFound)
    case Some(c) =>
      if c.author != caller.user then Err(Forbidden)
      else if c.removed then Err(Conflict(RemovedComment))
      else if Blocked(venue, caller, now, false).Some? then Err(Blocked(venue, caller, now, false).value)
      else if c.body == body then Ok(false)
      else if RateIsFull(writes, caller.user, now) then Err(RateLimited)
      else Ok(true)
  }

  /** Why a post is refused. */
  ghost function PostRefused(cs: seq<Comment>, writes: seq<Write>, now: int, enabled: bool, caller: Caller,
                             proposal: Id, venue: Venue, parent: Option<Id>): Option<Error>
  {
    if Gate(enabled, caller).Some? then Gate(enabled, caller)
    else if Blocked(venue, caller, now, false).Some? then Blocked(venue, caller, now, false)
    else if Misplaced(cs, proposal, parent).Some? then Misplaced(cs, proposal, parent)
    else if RateIsFull(writes, caller.user, now) then Some(RateLimited)
    else None
  }

  // ------------------------------------------------------------ acceptance, written out

  /** The debate takes a post of the caller: on, permitted, published, in a phase that takes
      it before its end, not locked, in a place of the caller. */
  predicate Takes(enabled: bool, v: Venue, caller: Caller, now: int, amendment: bool) {
    && enabled && caller.mayComment && v.row.Some? && v.row.value.publishedAt.Some? && !v.locked
    && v.row.value.jurisdiction in caller.places
    && match v.row.value.status
       case Collecting => v.row.value.collectEndsAt.Some? ==> now < v.row.value.collectEndsAt.value
       case InDebate => v.row.value.debateEndsAt.Some? ==> now < v.row.value.debateEndsAt.value
       case InVoting => !amendment && (v.row.value.voteEndsAt.Some? ==> now < v.row.value.voteEndsAt.value)
       case _ => false
  }

  lemma TakesIff(enabled: bool, v: Venue, caller: Caller, now: int, amendment: bool)
    ensures Takes(enabled, v, caller, now, amendment) <==>
              Gate(enabled, caller).None? && Blocked(v, caller, now, amendment).None?
  {
  }

  /** A locked debate takes nothing, and says so once the phase would. */
  lemma LockedRefuses(v: Venue, caller: Caller, now: int, amendment: bool)
    requires v.locked
    ensures Blocked(v, caller, now, amendment).Some?
    ensures v.row.Some? && v.row.value.publishedAt.Some? && PhaseOpen(v.row.value, now, amendment) ==>
              Blocked(v, caller, now, amendment) == Some(Conflict(DebateLocked))
  {
  }

  /** A comment is accepted exactly when the debate takes it, the comment it answers is a
      visible one of the debate at most one reply deep, and its author wrote fewer than ten
      in the last ten minutes; each refusal names its cause. */
  lemma PostIff(cs: seq<Comment>, writes: seq<Write>, now: int, enabled: bool, caller: Caller, proposal: Id,
                venue: Venue, parent: Option<Id>)
    requires DistinctIds(cs)
    ensures PostRefused(cs, writes, now, enabled, caller, proposal, venue, parent).None? <==>
            && Takes(enabled, venue, caller, now, false)
            && (parent.Some? ==>
                  exists k :: && 0 <= k < |cs| && cs[k].id == parent.value && cs[k].proposal == proposal
                              && !cs[k].removed && cs[k].depth < 2)
            && Recent(writes, caller.user, now - 600_000) < 10
    ensures match PostRefused(cs, writes, now, enabled, caller, proposal, venue, parent)
            case Some(FeatureDisabled) => !enabled
            case Some(Forbidden) =>
              !caller.mayComment || (venue.row.Some? && venue.row.value.jurisdiction !in caller.places)
            case Some(PhaseClosed) => venue.row.Some? && !PhaseOpen(venue.row.value, now, false)
            case Some(RateLimited) => Recent(writes, caller.user, now - 600_000) >= 10
            case Some(NotFound) =>
              || venue.row.None? || venue.row.value.publishedAt.None?
              || (parent.Some? && forall k :: 0 <= k < |cs| && cs[k].id == parent.value ==> cs[k].proposal != proposal)
            case Some(Conflict(DebateLocked)) => venue.locked
            case Some(Conflict(RemovedComment)) =>
              parent.Some? && exists k :: 0 <= k < |cs| && cs[k].id == parent.value && cs[k].removed
            case Some(Validation) =>
              parent.Some? && exists k :: 0 <= k < |cs| && cs[k].id == parent.value && cs[k].depth >= 2
            case Some(_) => false
            case None => true
  {
    TakesIff(enabled, venue, caller, now, false);
    if parent.Some? {
      ParentRow(cs, parent.value);
    }
    hide Takes, Recent, Row, PhaseOpen;
  }

  lemma ParentRow(cs: seq<Comment>, id: Id)
    requires DistinctIds(cs)
    ensures forall k :: 0 <= k < |cs| && cs[k].id == id ==> Row(cs, id) == Some(cs[k])
    ensures Row(cs, id).Some? ==> exists k :: 0 <= k < |cs| && cs[k].id == id && Row(cs, id) == Some(cs[k])
  {
    forall k | 0 <= k < |cs| && cs[k].id == id
      ensures Row(cs, id) == Some(cs[k])
    {
      RowIs(cs, k);
    }
    if Row(cs, id).Some? {
      var k :| 0 <= k < |cs| && cs[k] == Row(cs, id).value;
    }
  }

  /** An edit is accepted exactly from the author of a visible comment while the debate
      takes comments; a new text also counts against the ten in ten minutes. */
  lemma EditIff(cs: seq<Comment>, writes: seq<Write>, now: int, enabled: bool, caller: Caller, id: Id, body: string,
                venue: Venue)
    requires DistinctIds(cs)
    ensures EditOutcome(cs, writes, now, enabled, caller, id, body, venue).Ok? <==>
            && Takes(enabled, venue, caller, now, false)
            && exists k :: && 0 <= k < |cs| && cs[k].id == id && cs[k].author == caller.user && !cs[k].removed
                           && (cs[k].body == body || Recent(writes, caller.user, now - 600_000) < 10)
    ensures EditOutcome(cs, writes, now, enabled, caller, id, body, venue).Ok? ==>
            (EditOutcome(cs, writes, now, enabled, caller, id, body, venue).value <==>
               forall k :: 0 <= k < |cs| && cs[k].id == id ==> cs[k].body != body)
    ensures match EditOutcome(cs, writes, now, enabled, caller, id, body, venue)
            case Err(FeatureDisabled) => !enabled
            case Err(Forbidden) =>
              || !caller.mayComment || (venue.row.Some? && venue.row.value.jurisdiction !in caller.places)
              || exists k :: 0 <= k < |cs| && cs[k].id == id && cs[k].author != caller.user
            case Err(PhaseClosed) => venue.row.Some? && !PhaseOpen(venue.row.value, now, false)
            case Err(RateLimited) => Recent(writes, caller.user, now - 600_000) >= 10
            case Err(NotFound) =>
              venue.row.None? || venue.row.value.publishedAt.None? || forall k :: 0 <= k < |cs| ==> cs[k].id != id
            case Err(Conflict(DebateLocked)) => venue.locked
            case Err(Conflict(RemovedComment)) => exists k :: 0 <= k < |cs| && cs[k].id == id && cs[k].removed
            case Err(_) => false
            case Ok(_) => true
  {
    TakesIff(enabled, venue, caller, now, false);
    ParentRow(cs, id);
    hide Takes, Recent, Row, PhaseOpen;
  }

  class Board {
    var comments: seq<Comment>
    /** Revisions, one per accepted post or edit. */
    var writes: seq<Write>
    var amendments: seq<Write>
    var next: Id

    ghost predicate Valid()
      reads this
    {
      && WellBuilt(comments) && (forall k :: 0 <= k < |comments| ==> comments[k].id < next)
      && Admitted(writes, RATE_WINDOW, RATE_LIMIT) && Admitted(amendments, AMENDMENT_WINDOW, AMENDMENT_LIMIT)
    }

    constructor ()
      ensures Valid() && comments == [] && writes == []
    {
      comments, writes, amendments, next := [], [], [], 0;
    }

    method Find(id: Id) returns (n: Option<nat>)
      requires DistinctIds(comments)
      ensures match n
              case Some(k) => HasId(comments, k, id) && Row(comments, id) == Some(comments[k])
              case None => Row(comments, id) == None
    {
      for k := 0 to |comments|
        invariant forall m: nat :: m < k ==> !HasId(comments, m, id)
      {
        if comments[k].id == id {
          RowIs(comments, k);
          return Some(k);
        }
      }
      n := None;
    }

    /** A top-level comment or a reply. It is accepted exactly when the debate is open to the
        caller, the parent is a visible comment of it that can be answered, and the window
        has room. */
    method PostComment(now: int, enabled: bool, caller: Caller, proposal: Id, venue: Venue, parent: Option<Id>,
                       body: string)
      returns (r: Result<Id>)
      requires Valid()
      modifies this
      ensures Valid() && amendments == old(amendments)
      ensures match PostRefused(old(comments), old(writes), now, enabled, caller, proposal, venue, parent)
              case Some(e) => r == Err(e) && comments == old(comments) && writes == old(writes)
              case None =>
                && r.Ok? && |comments| == |old(comments)| + 1 && comments[..|old(comments)|] == old(comments)
                && writes == old(writes) + [Write(caller.user, now)]
                && var c := comments[|old(comments)|];
                   && c.id == r.value && c.proposal == proposal && c.author == caller.user && c.parent == parent
                   && !c.removed && c.body == body
    {
      var gate := Gate(enabled, caller);
      if gate.Some? {
        return Err(gate.value);
      }
      var block := Blocked(venue, caller, now, false);
      if block.Some? {
        return Err(block.value);
      }
      var id := next;
      var root, depth := id, 0;
      ghost var at := 0;
      if parent.Some? {
        var found := Find(parent.value);
        if found.None? {
          return Err(NotFound);
        }
        var p := comments[found.value];
        at := found.value;
        if p.proposal != proposal {
          return Err(NotFound);
        }
        if p.removed {
          return Err(Conflict(RemovedComment));
        }
        if p.depth >= MAX_DEPTH {
          return Err(Validation);
        }
        root, depth := p.root, p.depth + 1;
      }
      if RateIsFull(writes, caller.user, now) {
        return Err(RateLimited);
      }
      var c := Comment(id, proposal, caller.user, parent, root, depth, false, body);
      assert parent.Some? ==> Replies(c, comments[at]);
      PlacedStays(comments, c);
      AdmitKeeps(writes, caller.user, now, RATE_WINDOW, RATE_LIMIT);
      comments, writes, next := comments + [c], writes + [Write(caller.user, now)], next + 1;
      r := Ok(id);
    }

    /** The author's edit; the same text again is accepted and writes nothing. */
    method EditComment(now: int, enabled: bool, caller: Caller, id: Id, body: string, venue: Venue)
      returns (r: Result<bool>)
      requires Valid()
      modifies this
      ensures Valid() && amendments == old(amendments)
      ensures r == EditOutcome(old(comments), old(writes), now, enabled, caller, id, body, venue)
      ensures r == Ok(true) ==>
                && writes == old(writes) + [Write(caller.user, now)]
                && exists k: nat ::
                     && HasId(old(comments), k, id)
                     && comments == old(comments)[k := old(comments)[k].(body := body)]
      ensures r != Ok(true) ==> comments == old(comments) && writes == old(writes)
    {
      var gate := Gate(enabled, caller);
      if gate.Some? {
        return Err(gate.value);
      }
      var found := Find(id);
      if found.None? {
        return Err(NotFound);
      }
      var k := found.value;
      var c := comments[k];
      if c.author != caller.user {
        return Err(Forbidden);
      }
      if c.removed {
        return Err(Conflict(RemovedComment));
      }
      var block := Blocked(venue, caller, now, false);
      if block.Some? {
        return Err(block.value);
      }
      if c.body == body {
        return Ok(false);
      }
      if RateIsFull(writes, caller.user, now) {
        return Err(RateLimited);
      }
      RewrittenStays(comments, k, body, c.removed);
      AdmitKeeps(writes, caller.user, now, RATE_WINDOW, RATE_LIMIT);
      comments, writes := comments[k := c.(body := body)], writes + [Write(caller.user, now)];
      r := Ok(true);
    }

    /** Moderation hides a visible comment or restores a hidden one, in place. */
    method Moderate(id: Id, remove: bool) returns (g: Guard)
      requires Valid()
      modifies this`comments
      ensures Valid()
      ensures g == match Row(old(comments), id)
                   case None => Fail(NotFound)
                   case Some(c) =>
                     if c.removed != remove then Pass
                     else Fail(Conflict(if remove then RemovedComment else VisibleComment))
      ensures |comments| == |old(comments)|
      ensures forall k :: 0 <= k < |comments| ==>
                comments[k] == if g == Pass && old(comments)[k].id == id then old(comments)[k].(removed := remove)
                  else old(comments)[k]
    {
      var found := Find(id);
      if found.None? {
        return Fail(NotFound);
      }
      var k := found.value;
      if remove {
        if comments[k].removed {
          return Fail(Conflict(RemovedComment));
        }
      } else if !comments[k].removed {
        return Fail(Conflict(VisibleComment));
      }
      Unique(comments, k);
      RewrittenStays(comments, k, comments[k].body, remove);
      comments := comments[k := comments[k].(removed := remove)];
      g := Pass;
    }

    /** A suggested change: at most five a day, by the same window. */
    method ProposeAmendment(now: int, enabled: bool, caller: Caller, venue: Venue) returns (g: Guard)
      requires Valid()
      modifies this`amendments
      ensures Valid()
      ensures g == Pass <==>
                Takes(enabled, venue, caller, now, true) && Recent(old(amendments), caller.user, now - 86_400_000) < 5
      ensures g.Fail? ==> g.error == if Gate(enabled, caller).Some? then Gate(enabled, caller).value
                                     else if Blocked(venue, caller, now, true).Some?
                                     then Blocked(venue, caller, now, true).value
                                     else RateLimited
      ensures amendments == old(amendments) + if g == Pass then [Write(caller.user, now)] else []
      ensures forall from, to :: to == from + 86_400_000 ==> Within(amendments, caller.user, from, to) <= 5
    {
      WindowsHold(caller.user);
      TakesIff(enabled, venue, caller, now, true);
      var gate := Gate(enabled, caller);
      if gate.Some? {
        return Fail(gate.value);
      }
      var block := Blocked(venue, caller, now, true);
      if block.Some? {
        return Fail(block.value);
      }
      if Recent(amendments, caller.user, now - AMENDMENT_WINDOW) >= AMENDMENT_LIMIT {
        return Fail(RateLimited);
      }
      AdmitKeeps(amendments, caller.user, now, AMENDMENT_WINDOW, AMENDMENT_LIMIT);
      amendments := amendments + [Write(caller.user, now)];
      WindowsHold(caller.user);
      g := Pass;
    }

    /** Whatever a board went through, every ten minutes hold at most ten comment writes of
        an account and every 24 hours at most five of its amendments. */
    lemma WindowsHold(author: Id)
      requires Valid()
      ensures forall from, to :: to == from + 600_000 ==> Within(writes, author, from, to) <= 10
      ensures forall from, to :: to == from + 86_400_000 ==> Within(amendments, author, from, to) <= 5
    {
      forall from, to | to == from + 600_000
        ensures Within(writes, author, from, to) <= 10
      {
        EveryWindowIsWithin(writes, author, to, RATE_WINDOW, RATE_LIMIT);
      }
      forall from, to | to == from + 86_400_000
        ensures Within(amendments, author, from, to) <= 5
      {
        EveryWindowIsWithin(amendments, author, to, AMENDMENT_WINDOW, AMENDMENT_LIMIT);
      }
    }
  }

  lemma RowIs(cs: seq<Comment>, n: nat)
    requires DistinctIds(cs) && n < |cs|
    ensures Row(cs, cs[n].id) == Some(cs[n])
  {
    assert HasId(cs, n, cs[n].id);
  }

  lemma Unique(cs: seq<Comment>, n: nat)
    requires DistinctIds(cs) && n < |cs|
    ensures forall k :: 0 <= k < |cs| && cs[k].id == cs[n].id ==> k == n
  {
  }
}
