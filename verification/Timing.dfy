/** How long a law may stay open when the ticker completes a pass at least every `gap`
    milliseconds. */
module Timing {
  import opened Prelude
  import opened Electoral
  import opened Territory
  import opened Tables
  import opened Transactions
  import opened Integrity
  import opened Preservation
  import opened Steps
  import opened Runs

  /** The stored deadline of the phase a proposal is in. */
  function CurrentDeadline(p: Proposal): Option<int> {
    match p.status
    case Collecting => p.collectEndsAt
    case InDebate => p.debateEndsAt
    case InVoting => p.voteEndsAt
    case _ => None
  }

  predicate RowDue(p: Proposal, now: int) { DeadlinePassed(p, now) || VoteDue(p, now) }

  ghost predicate NothingDue(t: Tables, now: int) {
    forall i :: i in t.proposals ==> !RowDue(t.proposals[i], now)
  }

  /** A request, or the end of a ticker pass that started at an instant: nothing is due at
      that instant any more. */
  datatype Beat = Do(action: Action) | TickDone(at: int) {
    function When(): int { if Do? then action.env.now else at }
  }

  /** The latest start of a completed pass, and the latest instant read so far. */
  datatype Clock = Clock(last: int, now: int) {
    function Reads(at: int): Clock { Clock(last, Max(now, at)) }
    function Completes(at: int): Clock { Clock(Max(last, at), Max(now, at)) }
  }

  ghost function After(t: Tables, beats: seq<Beat>): Tables {
    if beats == [] then t
    else
      var before := After(t, beats[..|beats| - 1]);
      match beats[|beats| - 1]
      case Do(action) => Apply(before, action.env, action.request)
      case TickDone(_) => before
  }

  function ClockAfter(c: Clock, beats: seq<Beat>): Clock {
    if beats == [] then c
    else
      match beats[|beats| - 1]
      case Do(action) => ClockAfter(c, beats[..|beats| - 1]).Reads(action.env.now)
      case TickDone(at) => ClockAfter(c, beats[..|beats| - 1]).Completes(at)
  }

  /** No instant is more than `gap` after the latest completed pass started, nor a day
      before. Instants need not rise in commit order: passes, which read the clock once,
      overlap with requests and with each other. */
  ghost predicate Paced(t: Tables, c: Clock, beats: seq<Beat>, gap: int) {
    beats == [] ||
    (var init, last := beats[..|beats| - 1], beats[|beats| - 1];
     var before := ClockAfter(c, init);
     && Paced(t, c, init, gap)
     && before.last - DAY < last.When() <= before.last + gap
     && (last.Do? ==> Sane(last.action.env))
     && (last.TickDone? ==> NothingDue(After(t, init), last.at)))
  }

  // ------------------------------------------------------------ the invariant

  predicate LawOnTime(setups: map<Id, Setup>, p: Proposal, gap: int) {
    var rules := RulesAt(setups, p.setupVersion, p.kind);
    && p.publishedAt.Some? && rules.Some? && Lasts(p.collectEndsAt, p.publishedAt.value, rules.value.collectDays)
    && (p.debateEndsAt.Some? ==>
          rules.value.debateDays.Some?
          && p.debateEndsAt.value < p.collectEndsAt.value + rules.value.debateDays.value * DAY)
    && (p.status.InDebate? ==> p.debateEndsAt.Some?)
    && (p.status.InVoting? ==>
          var vote := RulesAt(setups, p.voteSetupVersion, p.kind);
          && vote.Some? && p.voteEndsAt.Some?
          && p.voteEndsAt.value < (if p.debateEndsAt.Some? then p.debateEndsAt.value + gap else p.collectEndsAt.value)
                                  + vote.value.voteDays * DAY)
  }

  predicate OnTime(setups: map<Id, Setup>, p: Proposal, gap: int) {
    if !IsOpen(p.status) || p.status.Draft? then true
    else if p.kind.InitialSetup? then p.publishedAt.Some? && VoteLasts(setups, p, p.publishedAt.value)
    else LawOnTime(setups, p, gap)
  }

  /** The deadline of an open phase lies after the last completed pass. */
  predicate Outlasts(p: Proposal, last: int) {
    IsOpen(p.status) && !p.status.Draft? ==> CurrentDeadline(p).Some? && last < CurrentDeadline(p).value
  }

  ghost predicate AllOnTime(t: Tables, c: Clock, gap: int) {
    && c.last <= c.now <= c.last + gap
    && forall i :: i in t.proposals ==> OnTime(t.setups, t.proposals[i], gap) && Outlasts(t.proposals[i], c.last)
  }

  lemma RulesInRange(setups: map<Id, Setup>, v: Option<Id>, kind: Kind)
    requires SetupsOk(setups)
    ensures var rules := RulesAt(setups, v, kind);
            rules.Some? ==>
              && 1 <= rules.value.voteDays <= 90
              && (rules.value.collectDays.Some? ==> 1 <= rules.value.collectDays.value <= 365)
              && (rules.value.debateDays.Some? ==> 1 <= rules.value.debateDays.value <= 180)
  {
    if v.Some? && v.value in setups {
      assert VersionOk(setups, v.value);
    }
    hide SetupsOk, Versions;
  }

  lemma SameRules(s: map<Id, Setup>, r: map<Id, Setup>, p: Proposal, gap: int)
    requires OnTime(s, p, gap) && forall v :: v in s ==> v in r && SameTerms(s[v], r[v])
    ensures OnTime(r, p, gap)
  {
    hide Rules;
  }

  lemma NewRowOnTime(setups: map<Id, Setup>, q: Proposal, last: int, now: int, gap: int)
    requires SetupsOk(setups) && NewRow(setups, q, now) && last - DAY < now
    ensures OnTime(setups, q, gap) && Outlasts(q, last)
  {
    RulesInRange(setups, q.voteSetupVersion, q.kind);
    hide SetupsOk, RulesAt;
  }

  lemma RowOnTime(setups: map<Id, Setup>, p: Proposal, q: Proposal, last: int, now: int, gap: int)
    requires SetupsOk(setups) && RowStep(setups, p, q, now) && last - DAY < now <= last + gap
    requires OnTime(setups, p, gap) && Outlasts(p, last)
    requires Shape(p) && Shape(q)
    ensures OnTime(setups, q, gap) && Outlasts(q, last)
  {
    RulesInRange(setups, q.voteSetupVersion, q.kind);
    RulesInRange(setups, q.setupVersion, q.kind);
    hide SetupsOk, RulesAt;
  }

  lemma StepOnTime(t: Tables, u: Tables, k: Id, c: Clock, now: int, gap: int, i: Id)
    requires Stepped(t, u, k, now) && SetupsOk(u.setups) && i in u.proposals
    requires i in t.proposals ==> Shape(t.proposals[i]) && Shape(u.proposals[i])
    requires AllOnTime(t, c, gap) && c.last - DAY < now <= c.last + gap
    ensures OnTime(u.setups, u.proposals[i], gap) && Outlasts(u.proposals[i], c.last)
  {
    hide SetupsOk, OnTime, Outlasts, Shape, RowStep, NewRow, TablesStep, Covered;
    assert forall v :: v in t.setups ==> SetupStep(t.setups[v], u.setups[v]);
    if i in t.proposals {
      SameRules(t.setups, u.setups, t.proposals[i], gap);
      if i == k {
        RowOnTime(u.setups, t.proposals[i], u.proposals[i], c.last, now, gap);
      }
    } else {
      assert i == k;
      NewRowOnTime(u.setups, u.proposals[i], c.last, now, gap);
    }
  }

  lemma ShapeOf(t: Tables, i: Id)
    requires i in t.proposals && Valid(t)
    ensures Shape(t.proposals[i])
  {
    hide Valid, Shape;
    RowIsOk(t, i);
  }

  lemma SetupsOf(t: Tables)
    requires Valid(t)
    ensures SetupsOk(t.setups)
  {
    hide SetupsOk;
  }

  lemma MovedOnTime(t: Tables, u: Tables, c: Clock, now: int, gap: int)
    requires Moved(t, u, now) && AllOnTime(t, c, gap) && c.last - DAY < now <= c.last + gap && Valid(t) && Valid(u)
    ensures AllOnTime(u, c.Reads(now), gap)
  {
    hide Valid, Stepped, OnTime, Outlasts, Shape;
    if u != t {
      var k :| Stepped(t, u, k, now);
      SetupsOf(u);
      forall i | i in u.proposals
        ensures OnTime(u.setups, u.proposals[i], gap) && Outlasts(u.proposals[i], c.last)
      {
        if i in t.proposals {
          ShapeOf(t, i);
        }
        ShapeOf(u, i);
        StepOnTime(t, u, k, c, now, gap, i);
      }
    }
  }

  lemma TickOnTime(t: Tables, c: Clock, at: int, gap: int)
    requires AllOnTime(t, c, gap) && at <= c.last + gap && NothingDue(t, at) && 0 <= gap
    ensures AllOnTime(t, c.Completes(at), gap)
  {
    forall i | i in t.proposals
      ensures Outlasts(t.proposals[i], Max(c.last, at))
    {
      assert !RowDue(t.proposals[i], at);
      hide OnTime;
    }
  }

  lemma {:induction false} PacedOnTime(t: Tables, c: Clock, beats: seq<Beat>, gap: int)
    requires Valid(t) && AllOnTime(t, c, gap) && Paced(t, c, beats, gap) && 0 <= gap
    ensures Valid(After(t, beats)) && AllOnTime(After(t, beats), ClockAfter(c, beats), gap)
  {
    hide Valid, AllOnTime, Apply, Moved, NothingDue;
    if beats != [] {
      var init, last := beats[..|beats| - 1], beats[|beats| - 1];
      PacedOnTime(t, c, init, gap);
      var m := After(t, init);
      match last
      case Do(action) =>
        ApplyKeeps(m, action.env, action.request);
        ApplyMoves(m, action.env, action.request);
        MovedOnTime(m, Apply(m, action.env, action.request), ClockAfter(c, init), action.env.now, gap);
      case TickDone(at) =>
        TickOnTime(m, ClockAfter(c, init), at, gap);
    }
  }

  /** Days of collection, debate and voting a law gets: the first two from the setup it
      was published under, the last from the setup in force when its vote opened. */
  function DaysAllowed(setups: map<Id, Setup>, p: Proposal): nat {
    var rules := RulesAt(setups, p.setupVersion, p.kind);
    var vote := RulesAt(setups, p.voteSetupVersion, p.kind);
    (if rules.Some? && rules.value.collectDays.Some? then rules.value.collectDays.value else 0)
    + (if p.debateEndsAt.Some? && rules.Some? && rules.value.debateDays.Some? then rules.value.debateDays.value else 0)
    + (if p.status.InVoting? && vote.Some? then vote.value.voteDays else 0)
  }

  lemma LawBound(setups: map<Id, Setup>, p: Proposal, c: Clock, gap: int)
    requires SetupsOk(setups) && IsOpen(p.status) && !p.status.Draft? && !p.kind.InitialSetup?
    requires LawOnTime(setups, p, gap) && Outlasts(p, c.last) && c.last <= c.now <= c.last + gap
    ensures p.publishedAt.Some? && c.now < p.publishedAt.value + DaysAllowed(setups, p) * DAY + 2 * gap
    ensures DaysAllowed(setups, p) <= 365 + 180 + 90
  {
    RulesInRange(setups, p.setupVersion, p.kind);
    RulesInRange(setups, p.voteSetupVersion, p.kind);
    hide SetupsOk, RulesAt;
  }

  /** A law still open is younger than its collection, debate and voting days plus twice
      the gap between ticker passes, so in all cases than 635 days plus twice the gap. */
  lemma OpenLawsAreYoung(catalog: Catalog, c: Clock, beats: seq<Beat>, gap: int, i: Id)
    requires Forest(catalog) && 0 <= gap && c.last == c.now && Paced(EmptyTables(catalog), c, beats, gap)
    ensures var t := After(EmptyTables(catalog), beats);
            i in t.proposals && IsOpen(t.proposals[i].status) && !t.proposals[i].status.Draft?
            && !t.proposals[i].kind.InitialSetup? ==>
              && t.proposals[i].publishedAt.Some?
              && var age := ClockAfter(c, beats).now - t.proposals[i].publishedAt.value;
                 age < DaysAllowed(t.setups, t.proposals[i]) * DAY + 2 * gap <= 635 * DAY + 2 * gap
  {
    EmptyIsValid(catalog);
    hide Valid, Paced, NothingDue, After, ClockAfter, DaysAllowed, Outlasts, LawOnTime, Forest;
    PacedOnTime(EmptyTables(catalog), c, beats, gap);
    var t := After(EmptyTables(catalog), beats);
    if i in t.proposals && IsOpen(t.proposals[i].status) && !t.proposals[i].status.Draft?
       && !t.proposals[i].kind.InitialSetup? {
      SetupsOf(t);
      LawBound(t.setups, t.proposals[i], ClockAfter(c, beats), gap);
    }
  }
}
