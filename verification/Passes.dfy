/** What one candidate of a ticker pass does to the due rows. */
module Passes {
  import opened Prelude
  import opened Electoral
  import opened Territory
  import opened Tables
  import opened Transactions
  import opened Integrity
  import opened Preservation
  import opened Decisions
  import opened Closing
  import opened Deadlines
  import opened Steps
  import opened Runs
  import opened Timing

  ghost predicate RowsElsewhere(t: Tables, u: Tables, i: Id) {
    u.proposals.Keys == t.proposals.Keys && forall j :: j in t.proposals && j != i ==> u.proposals[j] == t.proposals[j]
  }

  lemma SteppedElsewhere(t: Tables, u: Tables, i: Id, now: int)
    requires Stepped(t, u, i, now) && i in t.proposals
    ensures RowsElsewhere(t, u, i) && RowStep(u.setups, t.proposals[i], u.proposals[i], now)
  {
    hide GovernStep, TablesStep, RowStep;
  }

  lemma AdvancedStatus(t: Tables, env: Env, i: Id)
    requires AdvanceTx(t, env, i).Ok? && i in t.proposals && DeadlinePassed(t.proposals[i], env.now)
    ensures var (u, to) := AdvanceTx(t, env, i).value; to.Some? && i in u.proposals && u.proposals[i].status == to.value
  {
    AdvanceDelta(t, env, i);
    var (u, to) := AdvanceTx(t, env, i).value;
    if to == Some(InVoting) {
      hide AdvanceTx, OpenVoting;
      OpenVotingDelta(t, env, i, t.proposals[i]);
    } else {
      hide OpenVoting, Rejection, EndPhase;
    }
  }

  /** After its turn a candidate is no longer due, and no other row moved. */
  lemma AdvanceClears(t: Tables, env: Env, i: Id)
    requires i in t.proposals && DeadlinePassed(t.proposals[i], env.now) && Valid(t) && Sane(env)
    ensures AdvanceTx(t, env, i).Ok? && AdvanceTx(t, env, i).value.1.Some?
    ensures var (u, to) := AdvanceTx(t, env, i).value;
            RowsElsewhere(t, u, i) && i in u.proposals && !RowDue(u.proposals[i], env.now)
            && u.proposals[i].status == to.value
  {
    hide Valid, AdvanceTx, Stepped, RowStep, RowsElsewhere, Sane;
    AdvanceSucceeds(t, env, i);
    AdvanceSteps(t, env, i);
    AdvanceKeeps(t, env, i);
    AdvancedStatus(t, env, i);
    var u := AdvanceTx(t, env, i).value.0;
    SteppedElsewhere(t, u, i, env.now);
    SetupsOf(u);
    NotDueAgain(u.setups, t.proposals[i], u.proposals[i], env.now);
  }

  lemma NotDueAgain(setups: map<Id, Setup>, p: Proposal, q: Proposal, now: int)
    requires SetupsOk(setups) && RowStep(setups, p, q, now) && DeadlinePassed(p, now)
    requires q.status.Expired? || q.status.Archived? || (q.status.InVoting? && p.status.InDebate?)
    ensures !RowDue(q, now)
  {
    RulesInRange(setups, q.voteSetupVersion, q.kind);
    hide SetupsOk, RulesAt;
  }

  lemma CloseClears(t: Tables, env: Env, i: Id)
    requires i in t.proposals && VoteDue(t.proposals[i], env.now) && Valid(t)
    ensures CloseTx(t, env, i).Ok? && CloseTx(t, env, i).value.1.Some?
    ensures var (u, to) := CloseTx(t, env, i).value;
            RowsElsewhere(t, u, i) && i in u.proposals && !RowDue(u.proposals[i], env.now)
            && u.proposals[i].status == to.value
  {
    hide Valid, CloseTx, Stepped, RowStep, Closed;
    CloseSucceeds(t, env, i);
    CloseSteps(t, env, i);
    SteppedElsewhere(t, CloseTx(t, env, i).value.0, i, env.now);
    OpenVote(t, i);
    var figures := CloseDelta(t, env, i);
    ClosedStatus(t, CloseTx(t, env, i).value.0, i, figures, env.now);
  }

  lemma ClosedStatus(t: Tables, u: Tables, i: Id, figures: ResultCalc, now: int)
    requires Closed(t, u, i, figures, now)
    ensures i in u.proposals && u.proposals[i].status == figures.outcome.Status()
  {
    hide Counted, ResultRow, Adopting, Adopts, Rejection;
  }

  // ------------------------------------------------------------ a whole list of candidates

  function DuePhases(t: Tables, now: int): set<Id> {
    set i | i in t.proposals && DeadlinePassed(t.proposals[i], now)
  }

  function DueVotes(t: Tables, now: int): set<Id> {
    set i | i in t.proposals && VoteDue(t.proposals[i], now)
  }

  predicate Increasing(ids: seq<Id>) { forall k, l :: 0 <= k < l < |ids| ==> ids[k] < ids[l] }

  function First(ids: seq<Id>, n: nat): set<Id>
    requires n <= |ids|
  {
    set k | 0 <= k < n :: ids[k]
  }

  function Done(applied: seq<(Id, Status)>): set<Id> { set k | 0 <= k < |applied| :: applied[k].0 }

  /** Exactly the rows of `done` moved; each is listed once with its new status and is no
      longer due. */
  ghost predicate Swept(t: Tables, u: Tables, now: int, done: set<Id>, applied: seq<(Id, Status)>) {
    && u.proposals.Keys == t.proposals.Keys && done <= t.proposals.Keys
    && (forall i :: i in t.proposals && i !in done ==> u.proposals[i] == t.proposals[i])
    && (forall i :: i in done ==> !RowDue(u.proposals[i], now))
    && (forall k, l :: 0 <= k < l < |applied| ==> applied[k].0 != applied[l].0)
    && Done(applied) == done
    && (forall k :: 0 <= k < |applied| ==>
          applied[k].0 in u.proposals && u.proposals[applied[k].0].status == applied[k].1)
  }

  lemma SweptOne(t: Tables, m: Tables, u: Tables, now: int, done: set<Id>, applied: seq<(Id, Status)>, i: Id,
                 to: Status)
    requires Swept(t, m, now, done, applied) && i in t.proposals && i !in done
    requires RowsElsewhere(m, u, i) && i in u.proposals && !RowDue(u.proposals[i], now) && u.proposals[i].status == to
    ensures Swept(t, u, now, done + {i}, applied + [(i, to)])
  {
    var more := applied + [(i, to)];
    forall j | j in done + {i}
      ensures j in Done(more)
    {
      if j in done {
        assert j in Done(applied);
        var k :| 0 <= k < |applied| && applied[k].0 == j;
        assert more[k].0 == j;
      } else {
        assert more[|applied|].0 == i;
      }
    }
    assert forall k :: 0 <= k < |applied| ==> applied[k].0 in Done(applied);
    hide RowDue;
  }

  lemma SweptTrans(t: Tables, m: Tables, u: Tables, now: int, a: set<Id>, b: set<Id>, x: seq<(Id, Status)>,
                   y: seq<(Id, Status)>)
    requires Swept(t, m, now, a, x) && Swept(m, u, now, b, y) && a !! b
    ensures Swept(t, u, now, a + b, x + y)
  {
    hide RowDue;
    DoneJoin(x, y);
    assert forall k :: 0 <= k < |x| ==> x[k].0 in Done(x);
    assert forall k :: 0 <= k < |y| ==> y[k].0 in Done(y);
    hide Done;
  }

  lemma DoneJoin(x: seq<(Id, Status)>, y: seq<(Id, Status)>)
    ensures Done(x + y) == Done(x) + Done(y)
  {
    forall j | j in Done(x) + Done(y)
      ensures j in Done(x + y)
    {
      if j in Done(x) {
        var k :| 0 <= k < |x| && x[k].0 == j;
        assert (x + y)[k].0 == j;
      } else {
        var k :| 0 <= k < |y| && y[k].0 == j;
        assert (x + y)[|x| + k].0 == j;
      }
    }
  }

  lemma SweptNothing(t: Tables, now: int)
    ensures Swept(t, t, now, {}, [])
  {
  }

  ghost predicate IsPass(run: seq<Action>, env: Env) {
    forall k :: 0 <= k < |run| ==> run[k].env == env && (run[k].request.Advance? || run[k].request.CloseDue?)
  }

  lemma RunOneMore(t: Tables, run: seq<Action>, action: Action)
    ensures Run(t, run + [action]) == Apply(Run(t, run), action.env, action.request)
  {
    assert (run + [action])[..|run|] == run;
  }

  lemma {:induction false} RunAppend(t: Tables, a: seq<Action>, b: seq<Action>)
    ensures Run(t, a + b) == Run(Run(t, a), b)
  {
    if b == [] {
      assert a + b == a;
    } else {
      assert (a + b)[..|a + b| - 1] == a + b[..|b| - 1];
      RunAppend(t, a, b[..|b| - 1]);
    }
  }

  // ------------------------------------------------------------ passes that overlap

  /** What runs beside a pass that started at `now`: nothing that read its clock a day or
      more before. */
  ghost predicate Beside(run: seq<Action>, now: int) {
    forall k :: 0 <= k < |run| ==> Sane(run[k].env) && now - DAY < run[k].env.now
  }

  /** A row due at `now` was due at `now` before, in the same phase. */
  predicate StillDue(t: Tables, u: Tables, now: int, i: Id)
    requires i in u.proposals
  {
    RowDue(u.proposals[i], now) ==>
      i in t.proposals && u.proposals[i].status == t.proposals[i].status && RowDue(t.proposals[i], now)
  }

  /** Every phase lasts a day or more, so a row that enters one is not due. */
  lemma EnteredIsNotDue(setups: map<Id, Setup>, p: Proposal, q: Proposal, at: int, now: int)
    requires SetupsOk(setups) && RowStep(setups, p, q, at) && now < at + DAY && Shape(p) && RowDue(q, now)
    ensures q.status == p.status && RowDue(p, now)
  {
    RulesInRange(setups, q.setupVersion, q.kind);
    RulesInRange(setups, q.voteSetupVersion, q.kind);
    hide SetupsOk, RulesAt;
  }

  lemma BornIsNotDue(setups: map<Id, Setup>, q: Proposal, at: int, now: int)
    requires SetupsOk(setups) && NewRow(setups, q, at) && now < at + DAY
    ensures !RowDue(q, now)
  {
    RulesInRange(setups, q.voteSetupVersion, q.kind);
    hide SetupsOk, RulesAt;
  }

  lemma StepStillDue(t: Tables, u: Tables, k: Id, at: int, now: int, i: Id)
    requires Stepped(t, u, k, at) && SetupsOk(u.setups) && now < at + DAY && i in u.proposals
    requires i in t.proposals ==> Shape(t.proposals[i])
    ensures StillDue(t, u, now, i)
  {
    hide SetupsOk, Shape, RowStep, NewRow, TablesStep, GovernStep, RowDue;
    if RowDue(u.proposals[i], now) {
      if i !in t.proposals {
        BornIsNotDue(u.setups, u.proposals[i], at, now);
      } else if i == k {
        EnteredIsNotDue(u.setups, t.proposals[i], u.proposals[i], at, now);
      }
    }
  }

  /** No request makes a row due in the past: the due rows only get fewer, and a row that
      is no longer due stays so. */
  lemma ApplyFewerDue(t: Tables, env: Env, request: Request, now: int)
    requires Sane(env) && now < env.now + DAY && Valid(t)
    ensures var u := Apply(t, env, request);
            && t.proposals.Keys <= u.proposals.Keys
            && DuePhases(u, now) <= DuePhases(t, now) && DueVotes(u, now) <= DueVotes(t, now)
  {
    hide Valid, Apply, Stepped, Shape, RowDue, SetupsOk, Sane;
    var u := Apply(t, env, request);
    ApplyKeeps(t, env, request);
    ApplyMoves(t, env, request);
    if u != t {
      var k :| Stepped(t, u, k, env.now);
      SetupsOf(u);
      SteppedKeys(t, u, k, env.now);
      forall i | i in u.proposals
        ensures StillDue(t, u, now, i)
      {
        if i in t.proposals {
          ShapeOf(t, i);
        }
        StepStillDue(t, u, k, env.now, now, i);
      }
      FewerDue(t, u, now);
    }
  }

  lemma SteppedKeys(t: Tables, u: Tables, k: Id, at: int)
    requires Stepped(t, u, k, at)
    ensures t.proposals.Keys <= u.proposals.Keys
  {
    hide ProposalStep, TablesStep, GovernStep;
  }

  lemma FewerDue(t: Tables, u: Tables, now: int)
    requires forall i :: i in u.proposals ==> StillDue(t, u, now, i)
    ensures DuePhases(u, now) <= DuePhases(t, now) && DueVotes(u, now) <= DueVotes(t, now)
  {
    forall i | i in u.proposals && RowDue(u.proposals[i], now)
      ensures i in DuePhases(u, now) ==> i in DuePhases(t, now)
      ensures i in DueVotes(u, now) ==> i in DueVotes(t, now)
    {
      assert StillDue(t, u, now, i);
    }
  }

  lemma {:induction false} RunFewerDue(t: Tables, run: seq<Action>, now: int)
    requires Beside(run, now) && Valid(t)
    ensures var u := Run(t, run);
            && Valid(u) && t.proposals.Keys <= u.proposals.Keys
            && DuePhases(u, now) <= DuePhases(t, now) && DueVotes(u, now) <= DueVotes(t, now)
  {
    hide Valid, Apply, DuePhases, DueVotes, Sane;
    if run != [] {
      var init, last := run[..|run| - 1], run[|run| - 1];
      assert forall k :: 0 <= k < |init| ==> init[k] == run[k];
      RunFewerDue(t, init, now);
      ApplyKeeps(Run(t, init), last.env, last.request);
      ApplyFewerDue(Run(t, init), last.env, last.request, now);
    }
  }

  /** Entry `x` of a pass's report is the work of its transaction number `n` of the run. */
  ghost predicate Made(t: Tables, run: seq<Action>, env: Env, x: (Id, Status), n: nat) {
    && n < |run| && run[n].env == env && (run[n].request == Advance(x.0) || run[n].request == CloseDue(x.0))
    && var before, after := Run(t, run[..n]), Run(t, run[..n + 1]);
       && x.0 in before.proposals && RowDue(before.proposals[x.0], env.now)
       && x.0 in after.proposals && !RowDue(after.proposals[x.0], env.now) && after.proposals[x.0].status == x.1
  }

  ghost predicate IsMade(t: Tables, run: seq<Action>, env: Env, x: (Id, Status)) {
    exists n: nat :: Made(t, run, env, x, n)
  }

  /** Each entry was made in the run, and no proposal is listed twice. */
  ghost predicate Reported(t: Tables, run: seq<Action>, env: Env, applied: seq<(Id, Status)>) {
    && (forall k :: 0 <= k < |applied| ==> IsMade(t, run, env, applied[k]))
    && (forall k, l :: 0 <= k < l < |applied| ==> applied[k].0 != applied[l].0)
  }

  lemma MadeStays(t: Tables, run: seq<Action>, more: seq<Action>, env: Env, x: (Id, Status), n: nat)
    requires Made(t, run, env, x, n)
    ensures Made(t, run + more, env, x, n)
  {
    assert (run + more)[..n] == run[..n] && (run + more)[..n + 1] == run[..n + 1];
    hide Run, RowDue;
  }

  lemma ReportedStays(t: Tables, run: seq<Action>, more: seq<Action>, env: Env, applied: seq<(Id, Status)>)
    requires Reported(t, run, env, applied)
    ensures Reported(t, run + more, env, applied)
  {
    hide Made;
    forall k | 0 <= k < |applied|
      ensures IsMade(t, run + more, env, applied[k])
    {
      var n: nat :| Made(t, run, env, applied[k], n);
      MadeStays(t, run, more, env, applied[k], n);
    }
  }

  /** Action moves the due row `i` to `to`, from which it is no longer due. */
  ghost predicate Moving(t: Tables, action: Action, i: Id, to: Status) {
    && (action.request == Advance(i) || action.request == CloseDue(i))
    && var u := Apply(t, action.env, action.request);
       && i in t.proposals && RowDue(t.proposals[i], action.env.now)
       && i in u.proposals && !RowDue(u.proposals[i], action.env.now) && u.proposals[i].status == to
  }

  lemma MovingIsMade(t: Tables, run: seq<Action>, action: Action, i: Id, to: Status)
    requires Moving(Run(t, run), action, i, to)
    ensures Made(t, run + [action], action.env, (i, to), |run|)
  {
    var more := run + [action];
    assert more[..|run|] == run && more[..|run| + 1] == more;
    RunOneMore(t, run, action);
    hide Run, Apply, RowDue;
  }

  lemma ReportedMore(t: Tables, run: seq<Action>, applied: seq<(Id, Status)>, action: Action, i: Id, to: Status)
    requires Reported(t, run, action.env, applied) && i !in Done(applied) && Moving(Run(t, run), action, i, to)
    ensures Reported(t, run + [action], action.env, applied + [(i, to)])
  {
    hide Made, Moving;
    ReportedStays(t, run, [action], action.env, applied);
    MovingIsMade(t, run, action, i, to);
    var all := applied + [(i, to)];
    forall k | 0 <= k < |all|
      ensures IsMade(t, run + [action], action.env, all[k])
      ensures k < |applied| ==> all[k].0 in Done(applied)
    {
      assert k < |applied| ==> all[k] == applied[k];
    }
  }

  /** The reports of the two halves of a pass. */
  lemma ReportsJoin(t: Tables, a: seq<Action>, b: seq<Action>, env: Env, x: seq<(Id, Status)>, y: seq<(Id, Status)>)
    requires Reported(t, a, env, x) && Reported(Run(t, a), b, env, y) && Done(x) !! Done(y)
    ensures Reported(t, a + b, env, x + y)
  {
    hide Made;
    ReportedStays(t, a, b, env, x);
    forall k | 0 <= k < |y|
      ensures IsMade(t, a + b, env, y[k])
    {
      var n: nat :| Made(Run(t, a), b, env, y[k], n);
      MadeLater(t, a, b, env, y[k], n);
    }
    assert forall k :: 0 <= k < |x| ==> x[k].0 in Done(x);
    assert forall k :: 0 <= k < |y| ==> y[k].0 in Done(y);
    hide Done;
  }

  lemma MadeLater(t: Tables, a: seq<Action>, b: seq<Action>, env: Env, x: (Id, Status), n: nat)
    requires Made(Run(t, a), b, env, x, n)
    ensures Made(t, a + b, env, x, |a| + n)
  {
    assert (a + b)[..|a| + n] == a + b[..n] && (a + b)[..|a| + n + 1] == a + b[..n + 1];
    RunAppend(t, a, b[..n]);
    RunAppend(t, a, b[..n + 1]);
    hide Run, RowDue;
  }

  lemma BesideAppend(a: seq<Action>, b: seq<Action>, now: int)
    requires Beside(a, now) && Beside(b, now)
    ensures Beside(a + b, now)
  {
    hide Sane;
  }

  // ------------------------------------------------------------ where a pass stands

  ghost predicate BesideAll(others: seq<seq<Action>>, now: int) {
    forall k :: 0 <= k < |others| ==> Beside(others[k], now)
  }

  function Rest(ids: seq<Id>, k: nat): set<Id>
    requires k <= |ids|
  {
    set n | k <= n < |ids| :: ids[n]
  }

  /** After `k` candidates for a phase: only those to come may be due, and what was moved
      is no vote to close. */
  ghost predicate PhasesAt(t: Tables, u: Tables, run: seq<Action>, env: Env, ids: seq<Id>, k: nat,
                           applied: seq<(Id, Status)>)
    requires k <= |ids|
  {
    && u == Run(t, run) && Beside(run, env.now) && Reported(t, run, env, applied)
    && Done(applied) <= First(ids, k) && Done(applied) !! DueVotes(u, env.now)
    && DuePhases(u, env.now) <= Rest(ids, k) && DueVotes(u, env.now) <= DueVotes(t, env.now)
  }

  /** After `k` candidates for closing. */
  ghost predicate VotesAt(t: Tables, u: Tables, run: seq<Action>, env: Env, ids: seq<Id>, k: nat,
                          closed: seq<(Id, Status)>)
    requires k <= |ids|
  {
    && u == Run(t, run) && Beside(run, env.now) && Reported(t, run, env, closed)
    && Done(closed) <= First(ids, k)
    && DueVotes(u, env.now) <= Rest(ids, k) && DuePhases(u, env.now) <= DuePhases(t, env.now)
  }

  lemma PassAt(t: Tables, env: Env, ids: seq<Id>)
    ensures (forall i :: i in ids <==> i in DuePhases(t, env.now)) ==> PhasesAt(t, t, [], env, ids, 0, [])
    ensures (forall i :: i in ids <==> i in DueVotes(t, env.now)) ==> VotesAt(t, t, [], env, ids, 0, [])
  {
    forall i | i in ids
      ensures i in Rest(ids, 0)
    {
      var n :| 0 <= n < |ids| && ids[n] == i;
    }
    hide DuePhases, DueVotes;
  }

  lemma PhasesBeside(t: Tables, u: Tables, run: seq<Action>, env: Env, ids: seq<Id>, k: nat,
                     applied: seq<(Id, Status)>, group: seq<Action>)
    requires k <= |ids| && PhasesAt(t, u, run, env, ids, k, applied) && Beside(group, env.now) && Valid(u)
    ensures PhasesAt(t, Run(u, group), run + group, env, ids, k, applied)
  {
    hide Valid, Run, DuePhases, DueVotes, Done, First, Rest, Reported, Beside;
    RunFewerDue(u, group, env.now);
    RunAppend(t, run, group);
    ReportedStays(t, run, group, env, applied);
    BesideAppend(run, group, env.now);
  }

  lemma VotesBeside(t: Tables, u: Tables, run: seq<Action>, env: Env, ids: seq<Id>, k: nat, closed: seq<(Id, Status)>,
                    group: seq<Action>)
    requires k <= |ids| && VotesAt(t, u, run, env, ids, k, closed) && Beside(group, env.now) && Valid(u)
    ensures VotesAt(t, Run(u, group), run + group, env, ids, k, closed)
  {
    hide Valid, Run, DuePhases, DueVotes, Done, First, Rest, Reported, Beside;
    RunFewerDue(u, group, env.now);
    RunAppend(t, run, group);
    ReportedStays(t, run, group, env, closed);
    BesideAppend(run, group, env.now);
  }

  lemma FirstMore(ids: seq<Id>, k: nat)
    requires k < |ids|
    ensures First(ids, k + 1) == First(ids, k) + {ids[k]} && Rest(ids, k) == Rest(ids, k + 1) + {ids[k]}
  {
    assert ids[k] in Rest(ids, k);
  }

  lemma FirstIsOther(ids: seq<Id>, k: nat)
    requires k < |ids| && Increasing(ids)
    ensures ids[k] !in First(ids, k)
  {
  }

  lemma DoneMore(applied: seq<(Id, Status)>, i: Id, to: Status)
    ensures Done(applied + [(i, to)]) == Done(applied) + {i}
  {
    DoneJoin(applied, [(i, to)]);
    assert [(i, to)][0].0 == i && i in Done([(i, to)]);
  }

  function AppliedMore(applied: seq<(Id, Status)>, i: Id, to: Option<Status>): seq<(Id, Status)> {
    if to.Some? then applied + [(i, to.value)] else applied
  }

  lemma AppliedDeadline(t: Tables, env: Env, i: Id)
    ensures AdvanceTx(t, env, i).Ok? ==> Apply(t, env, Advance(i)) == AdvanceTx(t, env, i).value.0
    ensures CloseTx(t, env, i).Ok? ==> Apply(t, env, CloseDue(i)) == CloseTx(t, env, i).value.0
  {
    hide AdvanceTx, CloseTx;
  }

  lemma DeadlineIdle(t: Tables, env: Env, i: Id)
    ensures i !in DuePhases(t, env.now) ==> AdvanceTx(t, env, i) == Ok((t, None))
    ensures i !in DueVotes(t, env.now) ==> CloseTx(t, env, i) == Ok((t, None))
  {
    hide OpenVoting, EndPhase, CloseVote, VoteRules, DeadlinePassed, VoteDue;
  }

  lemma DueIsRow(t: Tables, now: int, i: Id)
    ensures i in DuePhases(t, now) <==> i in t.proposals && DeadlinePassed(t.proposals[i], now)
    ensures i in DueVotes(t, now) <==> i in t.proposals && VoteDue(t.proposals[i], now)
  {
    hide DeadlinePassed, VoteDue;
  }

  lemma AdvanceMoves(t: Tables, env: Env, i: Id)
    requires Sane(env) && Valid(t)
    ensures AdvanceTx(t, env, i).Ok?
    ensures Apply(t, env, Advance(i)) == AdvanceTx(t, env, i).value.0
    ensures AdvanceTx(t, env, i).value.1.Some? <==> i in DuePhases(t, env.now)
    ensures var (u, to) := AdvanceTx(t, env, i).value;
            && i !in DuePhases(u, env.now)
            && (to.Some? ==> Moving(t, Action(env, Advance(i)), i, to.value) && i !in DueVotes(u, env.now))
  {
    hide Valid, Sane, AdvanceTx, Apply, RowsElsewhere, DuePhases, DueVotes, DeadlinePassed, VoteDue;
    DeadlineIdle(t, env, i);
    DueIsRow(t, env.now, i);
    if i in DuePhases(t, env.now) {
      AdvanceClears(t, env, i);
      DueIsRow(AdvanceTx(t, env, i).value.0, env.now, i);
    }
    AppliedDeadline(t, env, i);
  }

  lemma CloseMoves(t: Tables, env: Env, i: Id)
    requires Valid(t)
    ensures CloseTx(t, env, i).Ok?
    ensures Apply(t, env, CloseDue(i)) == CloseTx(t, env, i).value.0
    ensures CloseTx(t, env, i).value.1.Some? <==> i in DueVotes(t, env.now)
    ensures var (u, to) := CloseTx(t, env, i).value;
            && i !in DueVotes(u, env.now)
            && (to.Some? ==> Moving(t, Action(env, CloseDue(i)), i, to.value))
  {
    hide Valid, CloseTx, Apply, RowsElsewhere, DuePhases, DueVotes, DeadlinePassed, VoteDue;
    DeadlineIdle(t, env, i);
    DueIsRow(t, env.now, i);
    if i in DueVotes(t, env.now) {
      CloseClears(t, env, i);
      DueIsRow(CloseTx(t, env, i).value.0, env.now, i);
    }
    AppliedDeadline(t, env, i);
  }

  lemma OneBeside(env: Env, request: Request)
    requires Sane(env)
    ensures Beside([Action(env, request)], env.now)
  {
    hide Sane;
  }

  /** One candidate for a phase, whatever became of it since it was listed. */
  lemma PhasesStep(t: Tables, u: Tables, run: seq<Action>, env: Env, ids: seq<Id>, k: nat, applied: seq<(Id, Status)>)
    requires k < |ids| && Increasing(ids) && PhasesAt(t, u, run, env, ids, k, applied) && Sane(env) && Valid(u)
    ensures AdvanceTx(u, env, ids[k]).Ok?
    ensures var (v, to) := AdvanceTx(u, env, ids[k]).value;
            PhasesAt(t, v, run + [Action(env, Advance(ids[k]))], env, ids, k + 1, AppliedMore(applied, ids[k], to))
  {
    hide Valid, AdvanceTx, Apply, Sane, Run, DuePhases, DueVotes, Done, First, Rest, Reported, Beside, Moving,
         Increasing;
    var action := Action(env, Advance(ids[k]));
    AdvanceMoves(u, env, ids[k]);
    var (v, to) := AdvanceTx(u, env, ids[k]).value;
    ApplyFewerDue(u, env, action.request, env.now);
    RunOneMore(t, run, action);
    OneBeside(env, action.request);
    BesideAppend(run, [action], env.now);
    FirstMore(ids, k);
    FirstIsOther(ids, k);
    if to.Some? {
      ReportedMore(t, run, applied, action, ids[k], to.value);
      DoneMore(applied, ids[k], to.value);
    } else {
      ReportedStays(t, run, [action], env, applied);
    }
  }

  lemma VotesStep(t: Tables, u: Tables, run: seq<Action>, env: Env, ids: seq<Id>, k: nat, closed: seq<(Id, Status)>)
    requires k < |ids| && Increasing(ids) && VotesAt(t, u, run, env, ids, k, closed) && Sane(env) && Valid(u)
    ensures CloseTx(u, env, ids[k]).Ok?
    ensures var (v, to) := CloseTx(u, env, ids[k]).value;
            VotesAt(t, v, run + [Action(env, CloseDue(ids[k]))], env, ids, k + 1, AppliedMore(closed, ids[k], to))
  {
    hide Valid, CloseTx, Apply, Sane, Run, DuePhases, DueVotes, Done, First, Rest, Reported, Beside, Moving, Increasing;
    var action := Action(env, CloseDue(ids[k]));
    CloseMoves(u, env, ids[k]);
    var (v, to) := CloseTx(u, env, ids[k]).value;
    ApplyFewerDue(u, env, action.request, env.now);
    RunOneMore(t, run, action);
    OneBeside(env, action.request);
    BesideAppend(run, [action], env.now);
    FirstMore(ids, k);
    FirstIsOther(ids, k);
    if to.Some? {
      ReportedMore(t, run, closed, action, ids[k], to.value);
      DoneMore(closed, ids[k], to.value);
    } else {
      ReportedStays(t, run, [action], env, closed);
    }
  }

  /** What a pass promises whatever runs beside it. */
  ghost predicate Passed(t: Tables, u: Tables, run: seq<Action>, env: Env, applied: seq<(Id, Status)>) {
    && u == Run(t, run) && Beside(run, env.now) && Reported(t, run, env, applied) && NothingDue(u, env.now)
    && (NothingDue(t, env.now) ==> applied == [])
  }

  ghost predicate VotesPassed(t: Tables, u: Tables, run: seq<Action>, env: Env, closed: seq<(Id, Status)>) {
    && u == Run(t, run) && Beside(run, env.now) && Reported(t, run, env, closed)
    && Done(closed) <= DueVotes(t, env.now)
    && DueVotes(u, env.now) == {} && DuePhases(u, env.now) <= DuePhases(t, env.now)
  }

  lemma VotesEnd(t: Tables, u: Tables, run: seq<Action>, env: Env, ids: seq<Id>, closed: seq<(Id, Status)>)
    requires VotesAt(t, u, run, env, ids, |ids|, closed) && forall i :: i in ids ==> i in DueVotes(t, env.now)
    ensures VotesPassed(t, u, run, env, closed)
  {
    assert forall k :: 0 <= k < |ids| ==> ids[k] in ids;
    hide Run, Reported, Done, DuePhases, DueVotes;
  }

  /** Nothing listed, nothing done. */
  lemma NothingDone(applied: seq<(Id, Status)>)
    requires Done(applied) == {}
    ensures applied == []
  {
    assert applied != [] ==> applied[0].0 in Done(applied);
  }

  lemma PassEnds(t: Tables, m: Tables, u: Tables, first: seq<Action>, second: seq<Action>, env: Env, ids: seq<Id>,
                 applied: seq<(Id, Status)>, closed: seq<(Id, Status)>)
    requires PhasesAt(t, m, first, env, ids, |ids|, applied) && VotesPassed(m, u, second, env, closed)
    requires forall i :: i in ids <==> i in DuePhases(t, env.now)
    ensures Passed(t, u, first + second, env, applied + closed)
  {
    assert Rest(ids, |ids|) == {};
    assert forall k :: 0 <= k < |ids| ==> ids[k] in ids;
    assert First(ids, |ids|) <= DuePhases(t, env.now);
    hide Run, Reported, Done, DuePhases, DueVotes, Beside, NothingDue, First, Rest;
    RunAppend(t, first, second);
    BesideAppend(first, second, env.now);
    ReportsJoin(t, first, second, env, applied, closed);
    DueIsSets(u, env.now);
    DueIsSets(t, env.now);
    if NothingDue(t, env.now) {
      NothingDone(applied);
      NothingDone(closed);
    }
  }

  lemma DueIsSets(t: Tables, now: int)
    ensures NothingDue(t, now) <==> DuePhases(t, now) == {} && DueVotes(t, now) == {}
  {
    hide DeadlinePassed, VoteDue;
    if NothingDue(t, now) {
      assert forall i :: i in t.proposals ==> !RowDue(t.proposals[i], now);
    } else {
      var i :| i in t.proposals && RowDue(t.proposals[i], now);
      assert i in DuePhases(t, now) || i in DueVotes(t, now);
    }
  }

  // ------------------------------------------------------------ a pass as a beat

  function Dos(run: seq<Action>): seq<Beat> { seq(|run|, k requires 0 <= k < |run| => Do(run[k])) }

  /** Requests within the bounds of `Paced`. */
  ghost predicate InPace(run: seq<Action>, c: Clock, gap: int) {
    forall k :: 0 <= k < |run| ==> Sane(run[k].env) && c.last - DAY < run[k].env.now <= c.last + gap
  }

  lemma {:induction false} DosPaced(t: Tables, c: Clock, beats: seq<Beat>, run: seq<Action>, gap: int)
    requires Paced(t, c, beats, gap) && InPace(run, ClockAfter(c, beats), gap)
    ensures var more := beats + Dos(run);
            && Paced(t, c, more, gap) && After(t, more) == Run(After(t, beats), run)
            && ClockAfter(c, more).last == ClockAfter(c, beats).last
  {
    var more := beats + Dos(run);
    if run == [] {
      assert more == beats;
    } else {
      var init, last := run[..|run| - 1], run[|run| - 1];
      assert forall k :: 0 <= k < |init| ==> init[k] == run[k];
      DosPaced(t, c, beats, init, gap);
      assert more[|more| - 1] == Do(last);
      assert more[..|more| - 1] == beats + Dos(init);
      hide Apply, Sane;
    }
  }

  /** A pass that started at `at`, with everything that ran beside it, continues a paced
      run, if at its end nothing was due at `at`: that it promises. */
  lemma PassIsBeat(t: Tables, c: Clock, beats: seq<Beat>, run: seq<Action>, at: int, gap: int)
    requires Paced(t, c, beats, gap) && InPace(run, ClockAfter(c, beats), gap)
    requires ClockAfter(c, beats).last - DAY < at <= ClockAfter(c, beats).last + gap
    requires NothingDue(Run(After(t, beats), run), at)
    ensures Paced(t, c, beats + Dos(run) + [TickDone(at)], gap)
    ensures ClockAfter(c, beats + Dos(run) + [TickDone(at)]).last == Max(ClockAfter(c, beats).last, at)
  {
    DosPaced(t, c, beats, run, gap);
    var more := beats + Dos(run);
    assert (more + [TickDone(at)])[..|more|] == more;
    hide NothingDue, Run;
  }
}
