/** The legislative engine as the program runs it: one writer whose transactions are
    committed, or rolled back when the next one begins, and use cases that change rows
    step by step. Every use case is proved to commit exactly what its specification in
    Transactions says, and to leave the committed tables alone when it fails. */
module LegislativeEngine {
  import opened Prelude
  import opened Electoral
  import opened Territory
  import opened Tables
  import opened Transactions
  import opened Integrity
  import opened Preservation
  import opened Decisions
  import opened Drafting
  import opened Closing
  import opened Deadlines
  import opened Runs
  import opened Timing
  import opened Passes

  class Engine {
    /** What readers see. */
    var committed: Tables
    /** The rows as the writer connection sees them. */
    var tx: Tables
    /** A transaction was begun and neither committed nor rolled back. */
    var open: bool

    ghost predicate Stable()
      reads this
    {
      Valid(committed) && (!open ==> tx == committed)
    }

    constructor (catalog: Catalog)
      requires Forest(catalog)
      ensures Stable() && committed == EmptyTables(catalog)
    {
      committed, tx, open := EmptyTables(catalog), EmptyTables(catalog), false;
      new;
      EmptyIsValid(catalog);
    }

    // ---------------------------------------------------------- transactions

    /** A transaction dropped without commit is rolled back before the next begins. */
    method Begin()
      requires Stable()
      modifies this`tx, this`open
      ensures open && tx == committed
    {
      if open {
        tx, open := committed, false;
      }
      open := true;
    }

    method Commit()
      modifies this`committed, this`open
      ensures !open && committed == tx
    {
      committed, open := tx, false;
    }

    // ---------------------------------------------------------- shared steps

    /** The oldest matching grant, marked consumed. */
    method ConsumeGrant(now: int, session: Id, action: Critical, resource: Id) returns (g: Guard)
      modifies this`tx
      ensures match Consume(old(tx), now, session, action, resource)
              case Ok(u) => g == Pass && tx == u
              case Err(e) => g == Fail(e) && tx == old(tx)
    {
      var usable := UsableGrants(tx.grants, now, session, action, resource);
      if usable == {} {
        return Fail(ReauthRequired);
      }
      var oldest :| oldest in usable;
      var left := usable - {oldest};
      while left != {}
        invariant left <= usable && oldest in usable && oldest !in left
        invariant forall h :: h in usable - left ==> Before(tx.grants, oldest, h)
        decreases left
      {
        var h :| h in left;
        assert usable - (left - {h}) == usable - left + {h};
        left := left - {h};
        if !Before(tx.grants, oldest, h) {
          oldest := h;
        }
      }
      OldestIsUnique(tx.grants, usable, oldest, Oldest(tx.grants, usable));
      tx := tx.(grants := tx.grants[oldest := tx.grants[oldest].(consumedAt := Some(now))]);
      g := Pass;
    }

    method AdoptedVersion(j: Id) returns (v: Option<Id>)
      requires SetupsOk(tx.setups)
      ensures v.Some? <==> HasAdopted(tx.setups, j)
      ensures v.Some? ==> v.value == AdoptedRow(tx.setups, j)
    {
      var found := set w | w in tx.setups && IsAdopted(tx.setups, j, w);
      if found == {} {
        v := None;
        assert forall w :: IsAdopted(tx.setups, j, w) ==> w in found;
      } else {
        var w :| w in found;
        v := Some(w);
        OneAdopted(tx.setups, j, w, AdoptedRow(tx.setups, j));
      }
    }

    /** The jurisdiction's adopted version, otherwise that of its nearest ancestor: the
        walk up ends because the catalog has no cycle. */
    method FindSetup(j: Id) returns (v: Option<Id>)
      requires SetupsOk(tx.setups) && Forest(tx.catalog)
      ensures v == EffectiveSetup(tx, j)
    {
      hide SetupsOk;
      assert Rooted(tx.catalog, j);
      var current := Some(j);
      ghost var n: nat := 0;
      ghost var top: nat :| Up(tx.catalog, j, top).None?;
      while current.Some?
        invariant current == Up(tx.catalog, j, n)
        invariant forall m: nat :: m < n ==> !HitAt(tx, j, m)
        decreases top - n
      {
        if n >= top {
          PastTheRoot(tx.catalog, j, top, n);
        }
        v := AdoptedVersion(current.value);
        if v.Some? {
          assert HitAt(tx, j, n);
          NearestIs(tx, j, n);
          return;
        }
        current := Parent(tx.catalog, current.value);
        n := n + 1;
      }
      forall m: nat
        ensures !HitAt(tx, j, m)
      {
        if m >= n {
          PastTheRoot(tx.catalog, j, n, m);
        }
      }
      v := None;
    }

    /** Materializes the eligible accounts for one phase. */
    method MaterializeElectorate(env: Env, i: Id, phase: Phase, j: Id, setup: Id) returns (r: Result<(Id, nat)>)
      modifies this`tx
      ensures match TakeSnapshot(old(tx), env, i, phase, j, setup)
              case Ok((u, s, n)) => r == Ok((s, n)) && tx == u
              case Err(e) => r == Err(e) && tx == old(tx)
    {
      var members := Eligible(env, j);
      if |members| == 0 {
        return Err(Conflict(EmptyElectorate));
      }
      if exists s :: s in tx.snapshots && tx.snapshots[s].proposal == i && tx.snapshots[s].phase == phase {
        return Err(Internal);
      }
      var s := tx.next;
      tx := tx.(next := s + 1, snapshots := tx.snapshots[s := Snapshot(i, phase, j, setup, |members|, members)]);
      r := Ok((s, |members|));
    }

    /** UPDATE of one row under the table's constraints. */
    method Update(i: Id, p: Proposal) returns (g: Guard)
      requires i in tx.proposals
      modifies this`tx
      ensures match Put(old(tx), i, p)
              case Ok(u) => g == Pass && tx == u
              case Err(e) => g == Fail(e) && tx == old(tx)
    {
      if tx.proposals[i].status.Archived? || !RowCheck(p) {
        return Fail(Internal);
      }
      tx := tx.(proposals := tx.proposals[i := p]);
      g := Pass;
    }

    method Record(e: Event)
      modifies this`tx
      ensures tx == Log(old(tx), e)
    {
      tx := tx.(trail := tx.trail + [e]);
    }

    method Reject(package: Option<Id>)
      modifies this`tx
      ensures tx == RejectPackage(old(tx), package)
    {
      if package.Some? {
        if package.value in tx.setups && tx.setups[package.value].status.Proposed? {
          tx := tx.(setups := tx.setups[package.value := tx.setups[package.value].(status := SetupRejected)]);
        }
      }
    }

    method LastVersion(j: Id) returns (m: nat)
      ensures m == MaxVersion(tx.setups, j)
    {
      var all := Versions(tx.setups, j);
      var left := all;
      m := 0;
      while left != {}
        invariant left <= all
        invariant forall n :: n in all - left ==> n <= m
        invariant m in all || (m == 0 && left == all)
        decreases left
      {
        var n :| n in left;
        assert all - (left - {n}) == all - left + {n};
        left := left - {n};
        if m < n {
          m := n;
        } else if m == 0 {
          m := n;
        }
      }
      assert all - left == all;
    }

    method Adopt(v: Id, source: Option<Id>) returns (g: Guard)
      modifies this`tx
      ensures match AdoptProposed(old(tx), v, source)
              case Ok(u) => g == Pass && tx == u
              case Err(e) => g == Fail(e) && tx == old(tx)
    {
      if v !in tx.setups {
        return Fail(NotFound);
      }
      if !tx.setups[v].status.Proposed? {
        return Fail(Conflict(NotProposed));
      }
      var j := tx.setups[v].jurisdiction;
      var last := LastVersion(j);
      tx := tx.(setups := SupersedeAll(tx.setups, j));
      tx := tx.(setups := tx.setups[v := tx.setups[v].(status := Adopted, version := Some(last + 1),
                                                       source := source)]);
      Record(SetupAdopted(v, j, last + 1, source));
      g := Pass;
    }

    // ---------------------------------------------------------- phases

    method OpenVoteWith(env: Env, i: Id, p: Proposal, setup: Id, params: SetupParams) returns (g: Guard)
      requires i in tx.proposals
      modifies this`tx
      ensures match OpenVotingWith(old(tx), env, i, p, setup, params)
              case Ok(u) => g == Pass && tx == u
              case Err(e) => g == Fail(e)
      ensures g.Fail? && g.error.Conflict? ==> tx == old(tx)
    {
      var taken := MaterializeElectorate(env, i, VotingPhase, p.jurisdiction, setup);
      if taken.Err? {
        return Fail(taken.error);
      }
      if tx.proposals[i].status != p.status {
        return Fail(PhaseClosed);
      }
      hide RowCheck, Rules;
      g := Update(i, tx.proposals[i].(
        status := InVoting, voteSetupVersion := Some(setup), voteSnapshot := Some(taken.value.0),
        voteEndsAt := Some(env.now + Rules(params, p.kind).voteDays * DAY)));
      if g.Pass? {
        Record(PhaseChanged(i, p.status, InVoting));
      }
    }

    method OpenVote(env: Env, i: Id, p: Proposal) returns (g: Guard)
      requires i in tx.proposals && SetupsOk(tx.setups) && Forest(tx.catalog)
      modifies this`tx
      ensures match OpenVoting(old(tx), env, i, p)
              case Ok(u) => g == Pass && tx == u
              case Err(e) => g == Fail(e)
      ensures g.Fail? && g.error.Conflict? ==> tx == old(tx)
    {
      hide OpenVotingWith, SetupsOk, Forest;
      if !CanTransition(p.kind, p.status, InVoting) {
        return Fail(PhaseClosed);
      }
      var setup := FindSetup(p.jurisdiction);
      if setup.None? {
        return Fail(Conflict(NoSetup));
      }
      g := OpenVoteWith(env, i, p, setup.value, tx.setups[setup.value].params);
    }

    /** The target was reached: debate for ordinary laws and setup changes, the vote at
        once for urgent laws. */
    method EndCollection(env: Env, i: Id, p: Proposal) returns (r: Result<Status>)
      requires i in tx.proposals && SetupsOk(tx.setups) && Forest(tx.catalog)
      modifies this`tx
      ensures match CloseCollection(old(tx), env, i, p)
              case Ok((u, status)) => r == Ok(status) && tx == u
              case Err(e) => r == Err(e)
    {
      hide SetupsOk, Forest, OpenVoting, Rules;
      var next := AfterCollection(p.kind);
      if next.None? {
        return Err(Internal);
      }
      if next.value.InDebate? {
        if p.setupVersion.None? || p.setupVersion.value !in tx.setups {
          return Err(Internal);
        }
        var days := Rules(tx.setups[p.setupVersion.value].params, p.kind).debateDays;
        if days.None? {
          return Err(Internal);
        }
        if !tx.proposals[i].status.Collecting? {
          return Err(PhaseClosed);
        }
        var g := Update(i, tx.proposals[i].(status := InDebate, debateEndsAt := Some(env.now + days.value * DAY)));
        if g.Fail? {
          return Err(g.error);
        }
        Record(PhaseChanged(i, p.status, InDebate));
      } else {
        var g := OpenVote(env, i, p);
        if g.Fail? {
          return Err(g.error);
        }
      }
      r := Ok(next.value);
    }

    /** The clock ended a phase without opening another. */
    method Finish(i: Id, row: Proposal) returns (g: Guard)
      requires i in tx.proposals
      modifies this`tx
      ensures match EndPhase(old(tx), i, row)
              case Ok(u) => g == Pass && tx == u
              case Err(e) => g == Fail(e)
    {
      var p := tx.proposals[i];
      g := Update(i, row);
      if g.Pass? {
        Record(PhaseChanged(i, p.status, row.status));
        Reject(p.proposedSetup);
      }
    }

    /** One candidate of a ticker pass, re-checked inside its own transaction; the result
        is `None` when nothing was due any more. */
    method AdvanceOne(env: Env, i: Id) returns (r: Result<Option<Status>>)
      requires Stable() && Sane(env)
      modifies this
      ensures Stable()
      ensures match AdvanceTx(old(committed), env, i)
              case Ok((u, to)) => r == Ok(to) && committed == u
              case Err(e) => r == Err(e) && committed == old(committed)
    {
      hide Valid, Forest, SetupsOk, OpenVoting, EndPhase, Sane;
      AdvanceKept(committed, env, i);
      Begin();
      if i !in tx.proposals || !DeadlinePassed(tx.proposals[i], env.now) {
        return Ok(None);
      }
      var p := tx.proposals[i];
      var to: Status;
      if p.status.Collecting? {
        var g := Finish(i, p.(status := Expired, closedAt := Some(env.now)));
        if g.Fail? {
          return Err(g.error);
        }
        to := Expired;
      } else {
        var g := OpenVote(env, i, p);
        if g.Pass? {
          to := InVoting;
        } else if g.error.Conflict? {
          g := Finish(i, p.(status := Archived, archivedAt := Some(env.now), closedAt := Some(env.now)));
          if g.Fail? {
            return Err(g.error);
          }
          to := Archived;
        } else {
          return Err(g.error);
        }
      }
      Commit();
      r := Ok(Some(to));
    }

    // ---------------------------------------------------------- closing votes

    /** Accepted ballots by choice. */
    method CountBallots(i: Id) returns (tally: Tally)
      ensures tally == TallyOf(tx.ballots, i)
    {
      tally := Tally(0, 0, 0);
      for k := 0 to |tx.ballots|
        invariant tally == TallyOf(tx.ballots[..k], i)
      {
        assert tx.ballots[..k + 1] == tx.ballots[..k] + [tx.ballots[k]];
        BallotAppended(tx.ballots[..k], tx.ballots[k], i);
        if tx.ballots[k].proposal == i {
          match tx.ballots[k].choice
          case Yes => tally := tally.(yes := tally.yes + 1);
          case No => tally := tally.(no := tally.no + 1);
          case Abstain => tally := tally.(abstain := tally.abstain + 1);
        }
      }
      assert tx.ballots[..|tx.ballots|] == tx.ballots;
    }

    /** Stores the terminal status and adopts or rejects the package voted on. */
    method CloseBallot(env: Env, i: Id, tally: Tally) returns (r: Result<ResultCalc>)
      modifies this`tx
      ensures match CloseVote(old(tx), env, i, tally)
              case Ok((u, figures)) => r == Ok(figures) && tx == u
              case Err(e) => r == Err(e)
    {
      hide ComputeResult, VoteRules, RowCheck, AdoptProposed, Rejection;
      if i !in tx.proposals {
        return Err(NotFound);
      }
      var p := tx.proposals[i];
      if !p.status.InVoting? {
        return Err(PhaseClosed);
      }
      var rules := VoteRules(tx, p);
      if rules.Err? {
        return Err(rules.error);
      }
      var (electorate, quorumBp, majorityBp) := rules.value;
      var result := ComputeResult(tally, electorate, quorumBp, majorityBp);
      if !result.Calc? {
        return Err(Internal);
      }
      var to := result.figures.outcome.Status();
      var g := Update(i, p.(status := to, closedAt := Some(env.now)));
      if g.Fail? {
        return Err(g.error);
      }
      if p.proposedSetup.Some? {
        if to.Approved? {
          g := Adopt(p.proposedSetup.value, Some(i));
          if g.Fail? {
            return Err(g.error);
          }
        } else {
          Reject(p.proposedSetup);
        }
      }
      Record(PhaseChanged(i, InVoting, to));
      r := Ok(result.figures);
    }

    /** Closes one vote past its deadline inside the caller's transaction. */
    method CloseOne(env: Env, i: Id) returns (r: Result<Option<Status>>)
      modifies this`tx
      ensures match CloseTx(old(tx), env, i)
              case Ok((u, to)) => r == Ok(to) && tx == u
              case Err(e) => r == Err(e)
    {
      hide CloseVote, VoteRules, TallyOf, VoteDue;
      if i !in tx.proposals || !VoteDue(tx.proposals[i], env.now) {
        return Ok(None);
      }
      var p := tx.proposals[i];
      var tally := CountBallots(i);
      var rules := VoteRules(tx, p);
      if rules.Err? {
        return Err(rules.error);
      }
      VoteRulesRefs(tx, p);
      var (electorate, quorumBp, majorityBp) := rules.value;
      var closing := CloseBallot(env, i, tally);
      if closing.Err? {
        return Err(closing.error);
      }
      if i in tx.results || tally.Participation() > electorate {
        return Err(Internal);
      }
      tx := tx.(results := tx.results[i := VoteResult(
        p.voteSnapshot.value, p.voteSetupVersion.value, electorate, tally, quorumBp, majorityBp, closing.value,
        env.now)]);
      r := Ok(Some(closing.value.outcome.Status()));
    }

    /** Ids in the order of the candidate queries. */
    static method Sorted(s: set<Id>) returns (ids: seq<Id>)
      ensures Increasing(ids) && (forall i :: i in ids <==> i in s) && (s == {} ==> ids == [])
    {
      ids := [];
      var left := s;
      while left != {}
        invariant left <= s && forall i :: i in ids <==> i in s - left
        invariant Increasing(ids) && forall i, j :: i in ids && j in left ==> i < j
        decreases left
      {
        LeastExists(left);
        var m :| m in left && IsLeast(left, m);
        assert s - (left - {m}) == s - left + {m};
        assert forall k :: 0 <= k < |ids| ==> ids[k] in ids;
        ids, left := ids + [m], left - {m};
      }
      assert s - left == s;
      assert ids != [] ==> ids[0] in s;
    }

    /** One candidate for closing, in its own transaction: committed when it closed, rolled
        back when nothing was due any more. */
    method CloseCandidate(env: Env, i: Id) returns (r: Result<Option<Status>>)
      requires Stable() && Sane(env)
      modifies this
      ensures Stable()
      ensures match CloseTx(old(committed), env, i)
              case Ok((u, to)) => r == Ok(to) && committed == u
              case Err(e) => r == Err(e) && committed == old(committed)
    {
      hide Valid, CloseTx, Sane;
      ghost var was := committed;
      Begin();
      r := CloseOne(env, i);
      if r.Ok? {
        CloseKeeps(was, env, i);
        if r.value.Some? {
          Commit();
        } else {
          tx, open := committed, false;
        }
      }
    }

    /** One request of somebody else, in its own transaction. */
    method Serve(env: Env, request: Request)
      requires Stable() && Sane(env)
      modifies this
      ensures Stable() && committed == Apply(old(committed), env, request)
    {
      hide Valid, GrantTx, SaveDraftTx, PublishTx, SignTx, UnsignTx, CastTx, WithdrawTx, ArchiveTx, StartTx,
           AdvanceTx, CloseTx, Sane;
      match request {
        case Reauthenticate(session, action, resource) => var _ := Reauthenticate(env.now, session, action, resource);
        case SaveDraft(actor, id, input) => var _ := SaveOwnDraft(env, actor, id, input);
        case Publish(actor, i, key) => var _ := PublishDraft(env, actor, i, key);
        case Sign(actor, i, key) => var _ := Sign(env, actor, i, key);
        case Unsign(actor, i, key) => var _ := WithdrawSignature(env, actor, i, key);
        case Cast(actor, i, choice, consent, key) => var _ := CastBallot(env, actor, i, choice, consent, key);
        case Withdraw(actor, i) => var _ := WithdrawProposal(env, actor, i);
        case Archive(actor, i) => var _ := ArchiveProposal(env, actor, i);
        case Start(actor, params) => var _ := StartInitialSetup(env, actor, params);
        case Advance(i) => var _ := AdvanceOne(env, i);
        case CloseDue(i) => var _ := CloseCandidate(env, i);
      }
    }

    /** What others commit between two transactions of a pass, other passes included. */
    method Others(group: seq<Action>)
      requires Stable() && SaneRun(group)
      modifies this
      ensures Stable() && committed == Run(old(committed), group)
    {
      hide Valid, Apply, Sane;
      ghost var before := committed;
      for k := 0 to |group|
        invariant Stable() && committed == Run(before, group[..k])
      {
        assert group[..k + 1] == group[..k] + [group[k]];
        RunOneMore(before, group[..k], group[k]);
        Serve(group[k].env, group[k].request);
      }
      assert group[..|group|] == group;
    }

    /** Closes every vote past its deadline, one transaction each, while others commit in
        between. Alone it closes exactly the due votes. */
    method CloseDueVotes(env: Env, others: seq<seq<Action>>) returns (r: Result<seq<(Id, Status)>>,
                         ghost run: seq<Action>)
      requires Stable() && Sane(env) && BesideAll(others, env.now)
      modifies this
      ensures Stable() && r.Ok?
      ensures VotesPassed(old(committed), committed, run, env, r.value)
      ensures others == [] ==>
                && Swept(old(committed), committed, env.now, DueVotes(old(committed), env.now), r.value)
                && IsPass(run, env) && (DueVotes(old(committed), env.now) == {} ==> committed == old(committed))
    {
      hide Valid, Swept, Sane, CloseTx, RowsElsewhere, Run, IsPass, Increasing, VotesAt, VotesPassed, BesideAll, Beside;
      var ids := Sorted(DueVotes(committed, env.now));
      var closed: seq<(Id, Status)> := [];
      run := [];
      ghost var before := committed;
      var turn := 0;
      PassAt(before, env, ids);
      SweptNothing(before, env.now);
      NoPass(before, env);
      assert First(ids, 0) == {};
      assert forall k :: 0 <= k < |ids| ==> ids[k] in ids;
      for k := 0 to |ids|
        invariant Stable() && turn <= |others|
        invariant VotesAt(before, committed, run, env, ids, k, closed)
        invariant others == [] ==> Swept(before, committed, env.now, First(ids, k), closed) && IsPass(run, env)
        invariant others == [] && k == 0 ==> committed == before
      {
        if turn < |others| {
          GroupOf(others, turn, env.now);
          VotesBeside(before, committed, run, env, ids, k, closed, others[turn]);
          Others(others[turn]);
          run := run + others[turn];
          turn := turn + 1;
        }
        ghost var was, done := committed, closed;
        VotesStep(before, was, run, env, ids, k, closed);
        var step := CloseCandidate(env, ids[k]);
        if step.value.Some? {
          closed := closed + [(ids[k], step.value.value)];
        }
        if others == [] {
          Candidate(before, was, env.now, ids, k, done);
          CloseClears(was, env, ids[k]);
          SweptOne(before, was, committed, env.now, First(ids, k), done, ids[k], step.value.value);
          FirstMore(ids, k);
          PassOneMore(before, run, Action(env, CloseDue(ids[k])));
        }
        run := run + [Action(env, CloseDue(ids[k]))];
      }
      VotesEnd(before, committed, run, env, ids, closed);
      assert First(ids, |ids|) == DueVotes(before, env.now);
      r := Ok(closed);
    }

    /** One ticker pass, while others commit between its transactions. From any stored state
        it succeeds, reports the rows it moved, each once with its new status, and leaves
        nothing due at its instant, so that a second pass finds nothing. Alone it moves
        exactly the due rows. */
    method AdvanceDue(env: Env, others: seq<seq<Action>>) returns (r: Result<seq<(Id, Status)>>, ghost run: seq<Action>)
      requires Stable() && Sane(env) && BesideAll(others, env.now)
      modifies this
      ensures Stable() && r.Ok?
      ensures Passed(old(committed), committed, run, env, r.value)
      ensures others == [] ==>
                && Swept(old(committed), committed, env.now,
                         DuePhases(old(committed), env.now) + DueVotes(old(committed), env.now), r.value)
                && IsPass(run, env) && (NothingDue(old(committed), env.now) ==> committed == old(committed))
    {
      hide Valid, Swept, Sane, AdvanceTx, RowsElsewhere, Run, IsPass, Increasing, NothingDue, PhasesAt, VotesPassed,
           Passed, BesideAll, Beside;
      var ids := Sorted(DuePhases(committed, env.now));
      var applied: seq<(Id, Status)> := [];
      run := [];
      ghost var before := committed;
      var turn := 0;
      PassAt(before, env, ids);
      SweptNothing(before, env.now);
      NoPass(before, env);
      assert First(ids, 0) == {};
      assert forall k :: 0 <= k < |ids| ==> ids[k] in ids;
      for k := 0 to |ids|
        invariant Stable() && turn <= |others|
        invariant PhasesAt(before, committed, run, env, ids, k, applied)
        invariant others == [] ==> Swept(before, committed, env.now, First(ids, k), applied) && IsPass(run, env)
        invariant others == [] && k == 0 ==> committed == before
      {
        if turn < |others| {
          GroupOf(others, turn, env.now);
          PhasesBeside(before, committed, run, env, ids, k, applied, others[turn]);
          Others(others[turn]);
          run := run + others[turn];
          turn := turn + 1;
        }
        ghost var was, done := committed, applied;
        PhasesStep(before, was, run, env, ids, k, applied);
        var step := AdvanceOne(env, ids[k]);
        if step.value.Some? {
          applied := applied + [(ids[k], step.value.value)];
        }
        if others == [] {
          Candidate(before, was, env.now, ids, k, done);
          AdvanceClears(was, env, ids[k]);
          SweptOne(before, was, committed, env.now, First(ids, k), done, ids[k], step.value.value);
          FirstMore(ids, k);
          PassOneMore(before, run, Action(env, Advance(ids[k])));
        }
        run := run + [Action(env, Advance(ids[k]))];
      }
      assert First(ids, |ids|) == DuePhases(before, env.now);
      if turn < |others| {
        GroupOf(others, turn, env.now);
        PhasesBeside(before, committed, run, env, ids, |ids|, applied, others[turn]);
        Others(others[turn]);
        run := run + others[turn];
        turn := turn + 1;
      }
      RestOf(others, turn, env.now);
      ghost var middle, first := committed, run;
      var closed, second := CloseDueVotes(env, others[turn..]);
      PassEnds(before, middle, committed, first, second, env, ids, applied, closed.value);
      if others == [] {
        PassesJoin(before, middle, committed, env.now, applied, closed.value);
        PassesAppend(first, second, env);
        NoneDue(before, env.now);
      }
      run := first + second;
      r := Ok(applied + closed.value);
    }

    // ---------------------------------------------------------- use cases

    method Reauthenticate(now: int, session: Id, action: Critical, resource: Id) returns (g: Id)
      requires Stable()
      modifies this
      ensures Stable() && committed == GrantTx(old(committed), now, session, action, resource)
      ensures g !in old(committed).grants && g in committed.grants
    {
      hide Valid;
      FreshGrant(committed);
      GrantKeeps(committed, now, session, action, resource);
      Begin();
      g := tx.next;
      tx := tx.(next := g + 1, grants := tx.grants[g := Grant(session, action, resource, now, now + VALIDITY, None)]);
      Commit();
    }

    /** The stored counter moves by one, guarded by the value read. */
    method Adjust(i: Id, p: Proposal, added: bool) returns (r: Result<nat>)
      requires i in tx.proposals
      modifies this`tx
      ensures match AdjustCount(old(tx), i, p, added)
              case Ok((u, count)) => r == Ok(count) && tx == u
              case Err(e) => r == Err(e)
    {
      if !added && p.count == 0 {
        return Err(Internal);
      }
      var count: nat := if added then p.count + 1 else p.count - 1;
      if !tx.proposals[i].status.Collecting? || tx.proposals[i].count != p.count {
        return Err(Internal);
      }
      hide RowCheck;
      var g := Update(i, tx.proposals[i].(count := count));
      if g.Fail? {
        return Err(g.error);
      }
      r := Ok(count);
    }

    method Remember(user: Id, key: Option<string>, action: KeyAction, payload: Payload, response: Response)
      modifies this`tx
      ensures tx == Store(old(tx), user, key, action, payload, response)
    {
      if key.Some? {
        tx := tx.(keys := tx.keys[(user, key.value) := KeyRow(action, payload, response)]);
      }
    }

    method Sign(env: Env, actor: Actor, i: Id, key: Option<string>) returns (r: Result<Response>)
      requires Stable() && Sane(env)
      modifies this
      ensures Stable()
      ensures match SignTx(old(committed), env, actor, i, key)
              case Ok((u, response)) => r == Ok(response) && committed == u
              case Err(e) => r == Err(e) && committed == old(committed)
    {
      hide Valid, Sane, Forest, SetupsOk, Consume, AdjustCount, CloseCollection, Store, Lookup, OpenCollection;
      SignKept(committed, env, actor, i, key);
      if SignaturesFlag !in env.flags {
        return Err(FeatureDisabled);
      }
      if MaySign !in actor.may {
        return Err(Forbidden);
      }
      Begin();
      var previous := Lookup(tx, actor.user, key, KSign, OnProposal(i));
      if previous.Err? {
        return Err(previous.error);
      }
      if previous.value.Some? {
        return Ok(previous.value.value);
      }
      var loaded := OpenCollection(tx, env.now, i);
      if loaded.Err? {
        return Err(loaded.error);
      }
      OpenedIs(tx, env.now, i);
      var p := loaded.value;
      if p.collectionSnapshot.None? {
        return Err(Internal);
      }
      if !(actor.ParticipatesIn(p.jurisdiction) && InSnapshot(tx, p.collectionSnapshot.value, actor.user)) {
        return Err(Forbidden);
      }
      if IsActive(tx, i, actor.user) {
        return Err(Conflict(AlreadySigned));
      }
      ConsumeOnly(tx, env.now, actor.session, SignProposal, i);
      var g := ConsumeGrant(env.now, actor.session, SignProposal, i);
      if g.Fail? {
        return Err(g.error);
      }
      tx := tx.(signatures := tx.signatures[(i, actor.user) := true]);
      AdjustOnly(tx, i, p, true);
      var adjusted := Adjust(i, p, true);
      if adjusted.Err? {
        return Err(adjusted.error);
      }
      var count := adjusted.value;
      if p.target.None? {
        return Err(Internal);
      }
      Record(SignatureAdded(i, count, p.target.value));
      var status := p.status;
      if count >= p.target.value {
        var ended := EndCollection(env, i, p.(count := count));
        if ended.Err? {
          return Err(ended.error);
        }
        status := ended.value;
      }
      r := Ok(SignatureState(status, count, p.target.value, true));
      Remember(actor.user, key, KSign, OnProposal(i), r.value);
      Commit();
    }

    method WithdrawSignature(env: Env, actor: Actor, i: Id, key: Option<string>) returns (r: Result<Response>)
      requires Stable() && Sane(env)
      modifies this
      ensures Stable()
      ensures match UnsignTx(old(committed), env, actor, i, key)
              case Ok((u, response)) => r == Ok(response) && committed == u
              case Err(e) => r == Err(e) && committed == old(committed)
    {
      hide Valid, Sane, AdjustCount, Store, Lookup, OpenCollection;
      UnsignKept(committed, env, actor, i, key);
      if SignaturesFlag !in env.flags {
        return Err(FeatureDisabled);
      }
      if MaySign !in actor.may {
        return Err(Forbidden);
      }
      Begin();
      var previous := Lookup(tx, actor.user, key, KUnsign, OnProposal(i));
      if previous.Err? {
        return Err(previous.error);
      }
      if previous.value.Some? {
        return Ok(previous.value.value);
      }
      var loaded := OpenCollection(tx, env.now, i);
      if loaded.Err? {
        return Err(loaded.error);
      }
      OpenedIs(tx, env.now, i);
      var p := loaded.value;
      if !IsActive(tx, i, actor.user) {
        return Err(Conflict(NotSigned));
      }
      tx := tx.(signatures := tx.signatures[(i, actor.user) := false]);
      var adjusted := Adjust(i, p, false);
      if adjusted.Err? {
        return Err(adjusted.error);
      }
      if p.target.None? {
        return Err(Internal);
      }
      Record(SignatureWithdrawn(i, adjusted.value, p.target.value));
      r := Ok(SignatureState(p.status, adjusted.value, p.target.value, false));
      Remember(actor.user, key, KUnsign, OnProposal(i), r.value);
      Commit();
    }

    method CastBallot(env: Env, actor: Actor, i: Id, choice: Choice, consent: bool, key: Option<string>)
      returns (r: Result<Response>)
      requires Stable() && Sane(env)
      modifies this
      ensures Stable()
      ensures match CastTx(old(committed), env, actor, i, choice, consent, key)
              case Ok((u, response)) => r == Ok(response) && committed == u
              case Err(e) => r == Err(e) && committed == old(committed)
    {
      hide Valid, Sane, Consume, Store, Lookup, HasVoted, InSnapshot;
      CastKept(committed, env, actor, i, choice, consent, key);
      if !(ProposalsFlag in env.flags && VotingFlag in env.flags) {
        return Err(FeatureDisabled);
      }
      if !consent {
        return Err(Validation);
      }
      Begin();
      var previous := Lookup(tx, actor.user, key, KCast, OnChoice(i, choice));
      if previous.Err? {
        return Err(previous.error);
      }
      if previous.value.Some? {
        return Ok(previous.value.value);
      }
      if i !in tx.proposals {
        return Err(NotFound);
      }
      var p := tx.proposals[i];
      if p.status.Draft? {
        return Err(NotFound);
      }
      if VotePermission(p.kind) !in actor.may {
        return Err(Forbidden);
      }
      if !IsVoteOpen(p, env.now) {
        return Err(PhaseClosed);
      }
      if p.voteSnapshot.None? {
        return Err(Internal);
      }
      if !InSnapshot(tx, p.voteSnapshot.value, actor.user) {
        return Err(Forbidden);
      }
      if HasVoted(tx.ballots, i, actor.user) {
        return Err(Conflict(AlreadyVoted));
      }
      ConsumeOnly(tx, env.now, actor.session, VoteAction(p.kind), i);
      var g := ConsumeGrant(env.now, actor.session, VoteAction(p.kind), i);
      if g.Fail? {
        return Err(g.error);
      }
      tx := tx.(ballots := tx.ballots + [Ballot(i, actor.user, p.voteSnapshot.value, choice)]);
      var votes := StoredCount(tx.ballotCounts, i) + 1;
      tx := tx.(ballotCounts := tx.ballotCounts[i := votes]);
      Record(VoteCast(i, votes));
      r := Ok(CastConfirmation(i, choice, env.now));
      Remember(actor.user, key, KCast, OnChoice(i, choice), r.value);
      Commit();
    }

    method PublishDraft(env: Env, actor: Actor, i: Id, key: Option<string>) returns (r: Result<Response>)
      requires Stable() && Sane(env)
      modifies this
      ensures Stable()
      ensures match PublishTx(old(committed), env, actor, i, key)
              case Ok((u, response)) => r == Ok(response) && committed == u
              case Err(e) => r == Err(e) && committed == old(committed)
    {
      hide Valid, Sane, Forest, SetupsOk, Consume, Store, Lookup, RowCheck, QuotaUsed, MinCount, SignatureBp,
           TakeSnapshot;
      PublishKept(committed, env, actor, i, key);
      if ProposalsFlag !in env.flags {
        return Err(FeatureDisabled);
      }
      if MayCreate !in actor.may {
        return Err(Forbidden);
      }
      Begin();
      var previous := Lookup(tx, actor.user, key, KPublish, OnProposal(i));
      if previous.Err? {
        return Err(previous.error);
      }
      if previous.value.Some? {
        return Ok(previous.value.value);
      }
      if i !in tx.proposals {
        return Err(NotFound);
      }
      var p := tx.proposals[i];
      if p.author != actor.user {
        return Err(NotFound);
      }
      if !CanTransition(p.kind, p.status, Collecting) {
        return Err(PhaseClosed);
      }
      if !actor.ParticipatesIn(p.jurisdiction) {
        return Err(Forbidden);
      }
      var setup := FindSetup(p.jurisdiction);
      if setup.None? {
        return Err(Conflict(NoSetup));
      }
      var params := tx.setups[setup.value].params;
      var rules := Rules(params, p.kind);
      if rules.quotaPerYear.Some? && QuotaUsed(tx, actor.user, p.kind, env.year) >= rules.quotaPerYear.value {
        return Err(Conflict(Quota));
      }
      ConsumeOnly(tx, env.now, actor.session, CreateProposal, i);
      var g := ConsumeGrant(env.now, actor.session, CreateProposal, i);
      if g.Fail? {
        return Err(g.error);
      }
      SnapshotOnly(tx, env, i, CollectionPhase, p.jurisdiction, setup.value);
      var taken := MaterializeElectorate(env, i, CollectionPhase, p.jurisdiction, setup.value);
      if taken.Err? {
        return Err(taken.error);
      }
      if p.jurisdiction !in tx.catalog {
        return Err(NotFound);
      }
      var target := Max1(MinCount(SignatureBp(params, tx.catalog[p.jurisdiction].level), taken.value.1));
      if rules.collectDays.None? {
        return Err(Internal);
      }
      var ends := env.now + rules.collectDays.value * DAY;
      if !tx.proposals[i].status.Draft? {
        return Err(PhaseClosed);
      }
      g := Update(i, tx.proposals[i].(
        status := Collecting, setupVersion := setup, collectionSnapshot := Some(taken.value.0), target := Some(target),
        quotaYear := if rules.quotaPerYear.Some? then Some(env.year) else None,
        collectEndsAt := Some(ends), publishedAt := Some(env.now)));
      if g.Fail? {
        return Err(g.error);
      }
      Record(ProposalPublished(i, target));
      r := Ok(Published(i, target, ends));
      Remember(actor.user, key, KPublish, OnProposal(i), r.value);
      Commit();
    }

    method SaveOwnDraft(env: Env, actor: Actor, id: Option<Id>, input: DraftInput) returns (r: Result<Id>)
      requires Stable() && Sane(env)
      modifies this
      ensures Stable()
      ensures match SaveDraftTx(old(committed), env, actor, id, input)
              case Ok((u, i)) => r == Ok(i) && committed == u
              case Err(e) => r == Err(e) && committed == old(committed)
    {
      hide Valid, Sane, Forest, SetupsOk, ValidParams, RowCheck, Rejection, DraftPackage;
      DraftKept(committed, env, actor, id, input);
      if ProposalsFlag !in env.flags {
        return Err(FeatureDisabled);
      }
      if MayCreate !in actor.may || !CitizenCreatable(input.kind) {
        return Err(Forbidden);
      }
      var proposed := DraftPackage(input);
      if proposed.Err? {
        return Err(proposed.error);
      }
      var j := AuthorJurisdiction(actor, input.level);
      Begin();
      var setup := FindSetup(j);
      if setup.None? {
        return Err(Conflict(NoSetup));
      }
      var i: Id;
      match id {
        case Some(draft) =>
          if draft !in tx.proposals || tx.proposals[draft].author != actor.user {
            return Err(NotFound);
          }
          if !tx.proposals[draft].status.Draft? {
            return Err(PhaseClosed);
          }
          Reject(tx.proposals[draft].proposedSetup);
          i := draft;
        case None =>
          i := tx.next;
          tx := tx.(next := i + 1, proposals := tx.proposals[i := BlankDraft(input.kind, j, actor.user)]);
      }
      var package: Option<Id> := None;
      if proposed.value.Some? {
        var inserted := Propose(j, proposed.value.value);
        if inserted.Err? {
          return Err(inserted.error);
        }
        package := Some(inserted.value);
      }
      var g := Update(i, tx.proposals[i].(kind := input.kind, jurisdiction := j, proposedSetup := package));
      if g.Fail? {
        return Err(g.error);
      }
      Commit();
      r := Ok(i);
    }

    method Propose(j: Id, params: SetupParams) returns (r: Result<Id>)
      modifies this`tx
      ensures match InsertProposed(old(tx), j, params)
              case Ok((u, v)) => r == Ok(v) && tx == u
              case Err(e) => r == Err(e) && tx == old(tx)
    {
      if !ValidParams(params) {
        return Err(Validation);
      }
      var v := tx.next;
      tx := tx.(next := v + 1, setups := tx.setups[v := Setup(j, None, Proposed, None, params)]);
      r := Ok(v);
    }

    method ArchiveLoaded(env: Env, i: Id, p: Proposal, e: Event) returns (g: Guard)
      requires i in tx.proposals
      modifies this`tx
      ensures match ArchiveRow(old(tx), env, i, p, e)
              case Ok(u) => g == Pass && tx == u
              case Err(error) => g == Fail(error)
    {
      hide RowCheck;
      if tx.proposals[i].status != p.status {
        return Fail(PhaseClosed);
      }
      var closed := if tx.proposals[i].closedAt.Some? then tx.proposals[i].closedAt else Some(env.now);
      g := Update(i, tx.proposals[i].(status := Archived, archivedAt := Some(env.now), closedAt := closed));
      if g.Pass? {
        Reject(p.proposedSetup);
        if !p.status.Draft? {
          Record(e);
        }
      }
    }

    method WithdrawProposal(env: Env, actor: Actor, i: Id) returns (g: Guard)
      requires Stable()
      modifies this
      ensures Stable()
      ensures match WithdrawTx(old(committed), env, actor, i)
              case Ok(u) => g == Pass && committed == u
              case Err(e) => g == Fail(e) && committed == old(committed)
    {
      hide Valid, ArchiveRow;
      WithdrawKept(committed, env, actor, i);
      Begin();
      if i !in tx.proposals {
        return Fail(NotFound);
      }
      var p := tx.proposals[i];
      if p.author != actor.user {
        return Fail(if p.status.Draft? then NotFound else Forbidden);
      }
      if !(p.status.Draft? || p.status.Collecting?) || !CanTransition(p.kind, p.status, Archived) {
        return Fail(PhaseClosed);
      }
      g := ArchiveLoaded(env, i, p, ProposalWithdrawn(i, p.status));
      if g.Pass? {
        Commit();
      }
    }

    method ArchiveProposal(env: Env, actor: Actor, i: Id) returns (g: Guard)
      requires Stable()
      modifies this
      ensures Stable()
      ensures match ArchiveTx(old(committed), env, actor, i)
              case Ok(u) => g == Pass && committed == u
              case Err(e) => g == Fail(e) && committed == old(committed)
    {
      hide Valid, ArchiveRow;
      ArchiveKept(committed, env, actor, i);
      if MayArchive !in actor.may {
        return Fail(Forbidden);
      }
      Begin();
      if i !in tx.proposals {
        return Fail(NotFound);
      }
      var p := tx.proposals[i];
      if !IsTerminal(p.status) {
        return Fail(PhaseClosed);
      }
      g := ArchiveLoaded(env, i, p, ProposalArchived(i, p.status));
      if g.Pass? {
        Commit();
      }
    }

    method StartInitialSetup(env: Env, actor: Actor, params: SetupParams) returns (r: Result<Id>)
      requires Stable() && Sane(env)
      modifies this
      ensures Stable()
      ensures match StartTx(old(committed), env, actor, params)
              case Ok((u, i)) => r == Ok(i) && committed == u
              case Err(e) => r == Err(e) && committed == old(committed)
    {
      hide Valid, Sane, Forest, SetupsOk, ValidParams, RowCheck, PlebisciteOpen, TakeSnapshot, Rules;
      StartKept(committed, env, actor, params);
      if MayStartSetup !in actor.may {
        return Err(Forbidden);
      }
      Begin();
      var setup := FindSetup(actor.country);
      if setup.Some? {
        return Err(Conflict(SetupExists));
      }
      if PlebisciteOpen(tx) {
        return Err(Conflict(SetupInProgress));
      }
      var package := Propose(actor.country, params);
      if package.Err? {
        return Err(package.error);
      }
      var i := tx.next;
      var row := BlankDraft(InitialSetup, actor.country, actor.user).(proposedSetup := Some(package.value));
      tx := tx.(next := i + 1, proposals := tx.proposals[i := row]);
      SnapshotOnly(tx, env, i, VotingPhase, actor.country, package.value);
      var taken := MaterializeElectorate(env, i, VotingPhase, actor.country, package.value);
      if taken.Err? {
        return Err(taken.error);
      }
      var g := Update(i, row.(
        status := InVoting, publishedAt := Some(env.now), voteSetupVersion := Some(package.value),
        voteSnapshot := Some(taken.value.0), voteEndsAt := Some(env.now + Rules(params, InitialSetup).voteDays * DAY)));
      if g.Fail? {
        return Err(g.error);
      }
      Record(PhaseChanged(i, Draft, InVoting));
      Commit();
      r := Ok(i);
    }
  }

  lemma AdvanceKept(t: Tables, env: Env, i: Id)
    requires Valid(t) && Sane(env)
    ensures Forest(t.catalog) && SetupsOk(t.setups)
    ensures AdvanceTx(t, env, i).Ok? ==> Valid(AdvanceTx(t, env, i).value.0)
  {
    hide Forest, SetupsOk, AdvanceTx;
    if AdvanceTx(t, env, i).Ok? {
      AdvanceKeeps(t, env, i);
    }
  }

  lemma VoteRulesRefs(t: Tables, p: Proposal)
    requires VoteRules(t, p).Ok?
    ensures p.voteSnapshot.Some? && p.voteSetupVersion.Some?
  {
  }

  lemma NoPass(t: Tables, env: Env)
    ensures IsPass([], env) && Run(t, []) == t
  {
  }

  lemma PassOneMore(t: Tables, run: seq<Action>, action: Action)
    requires IsPass(run, action.env) && (action.request.Advance? || action.request.CloseDue?)
    ensures IsPass(run + [action], action.env)
    ensures Run(t, run + [action]) == Apply(Run(t, run), action.env, action.request)
  {
    RunOneMore(t, run, action);
  }

  /** A listed id whose turn has not come still has its old row. */
  lemma Candidate(t: Tables, u: Tables, now: int, ids: seq<Id>, k: nat, applied: seq<(Id, Status)>)
    requires k < |ids| && Increasing(ids) && ids[k] in t.proposals
    requires Swept(t, u, now, First(ids, k), applied)
    ensures ids[k] in u.proposals && u.proposals[ids[k]] == t.proposals[ids[k]]
    ensures ids[k] !in First(ids, k)
  {
    hide RowDue;
  }

  lemma NoneDue(t: Tables, now: int)
    ensures NothingDue(t, now) ==> DuePhases(t, now) == {} && DueVotes(t, now) == {}
  {
    hide DeadlinePassed, VoteDue;
  }

  /** The votes due after the first half of a lone pass are those due before it. */
  lemma PassesJoin(t: Tables, m: Tables, u: Tables, now: int, applied: seq<(Id, Status)>, closed: seq<(Id, Status)>)
    requires Swept(t, m, now, DuePhases(t, now), applied) && Swept(m, u, now, DueVotes(m, now), closed)
    ensures DueVotes(m, now) == DueVotes(t, now)
    ensures Swept(t, u, now, DuePhases(t, now) + DueVotes(t, now), applied + closed)
  {
    hide Swept, DuePhases, DueVotes;
    SameVotes(t, m, now, applied);
    SweptTrans(t, m, u, now, DuePhases(t, now), DueVotes(t, now), applied, closed);
  }

  lemma GroupOf(others: seq<seq<Action>>, k: nat, now: int)
    requires BesideAll(others, now) && k < |others|
    ensures Beside(others[k], now) && SaneRun(others[k])
  {
    hide Sane;
  }

  lemma RestOf(others: seq<seq<Action>>, k: nat, now: int)
    requires BesideAll(others, now) && k <= |others|
    ensures BesideAll(others[k..], now)
  {
    hide Beside;
  }

  lemma PassesAppend(a: seq<Action>, b: seq<Action>, env: Env)
    requires IsPass(a, env) && IsPass(b, env)
    ensures IsPass(a + b, env)
  {
  }

  lemma SameVotes(t: Tables, m: Tables, now: int, applied: seq<(Id, Status)>)
    requires Swept(t, m, now, DuePhases(t, now), applied)
    ensures DueVotes(m, now) == DueVotes(t, now) && DuePhases(t, now) !! DueVotes(t, now)
  {
    assert forall i :: i in DuePhases(t, now) ==> !RowDue(m.proposals[i], now) && !VoteDue(t.proposals[i], now);
  }

  lemma FreshGrant(t: Tables)
    requires Valid(t)
    ensures t.next !in t.grants
  {
  }

  lemma SignKept(t: Tables, env: Env, actor: Actor, i: Id, key: Option<string>)
    requires Valid(t) && Sane(env)
    ensures Forest(t.catalog) && SetupsOk(t.setups)
    ensures SignTx(t, env, actor, i, key).Ok? ==> Valid(SignTx(t, env, actor, i, key).value.0)
  {
    hide Forest, SetupsOk, SignTx;
    if SignTx(t, env, actor, i, key).Ok? {
      SignKeeps(t, env, actor, i, key);
    }
  }

  lemma OpenedIs(t: Tables, now: int, i: Id)
    ensures OpenCollection(t, now, i).Ok? ==> i in t.proposals && OpenCollection(t, now, i).value == t.proposals[i]
  {
  }

  lemma ConsumeOnly(t: Tables, now: int, session: Id, action: Critical, resource: Id)
    ensures Consume(t, now, session, action, resource).Ok? ==>
              var u := Consume(t, now, session, action, resource).value;
              u == t.(grants := u.grants)
  {
  }

  lemma AdjustOnly(t: Tables, i: Id, p: Proposal, added: bool)
    requires i in t.proposals
    ensures AdjustCount(t, i, p, added).Ok? ==>
              var u := AdjustCount(t, i, p, added).value.0;
              u == t.(proposals := u.proposals) && i in u.proposals
  {
  }

  lemma UnsignKept(t: Tables, env: Env, actor: Actor, i: Id, key: Option<string>)
    requires Valid(t)
    ensures UnsignTx(t, env, actor, i, key).Ok? ==> Valid(UnsignTx(t, env, actor, i, key).value.0)
  {
    hide UnsignTx, Valid;
    if UnsignTx(t, env, actor, i, key).Ok? {
      UnsignKeeps(t, env, actor, i, key);
    }
  }

  lemma CastKept(t: Tables, env: Env, actor: Actor, i: Id, choice: Choice, consent: bool, key: Option<string>)
    requires Valid(t)
    ensures CastTx(t, env, actor, i, choice, consent, key).Ok? ==>
              Valid(CastTx(t, env, actor, i, choice, consent, key).value.0)
  {
    hide CastTx, Valid;
    if CastTx(t, env, actor, i, choice, consent, key).Ok? {
      CastKeeps(t, env, actor, i, choice, consent, key);
    }
  }

  lemma PublishKept(t: Tables, env: Env, actor: Actor, i: Id, key: Option<string>)
    requires Valid(t) && Sane(env)
    ensures Forest(t.catalog) && SetupsOk(t.setups)
    ensures PublishTx(t, env, actor, i, key).Ok? ==> Valid(PublishTx(t, env, actor, i, key).value.0)
  {
    hide Forest, SetupsOk, PublishTx;
    if PublishTx(t, env, actor, i, key).Ok? {
      PublishKeeps(t, env, actor, i, key);
    }
  }

  lemma SnapshotOnly(t: Tables, env: Env, i: Id, phase: Phase, j: Id, setup: Id)
    ensures TakeSnapshot(t, env, i, phase, j, setup).Ok? ==>
              var u := TakeSnapshot(t, env, i, phase, j, setup).value.0;
              u == t.(next := u.next, snapshots := u.snapshots)
  {
  }

  lemma DraftKept(t: Tables, env: Env, actor: Actor, id: Option<Id>, input: DraftInput)
    requires Valid(t)
    ensures Forest(t.catalog) && SetupsOk(t.setups)
    ensures SaveDraftTx(t, env, actor, id, input).Ok? ==> Valid(SaveDraftTx(t, env, actor, id, input).value.0)
  {
    hide Forest, SetupsOk, SaveDraftTx;
    if SaveDraftTx(t, env, actor, id, input).Ok? {
      SaveDraftKeeps(t, env, actor, id, input);
    }
  }

  lemma WithdrawKept(t: Tables, env: Env, actor: Actor, i: Id)
    requires Valid(t)
    ensures WithdrawTx(t, env, actor, i).Ok? ==> Valid(WithdrawTx(t, env, actor, i).value)
  {
    hide Valid, WithdrawTx;
    if WithdrawTx(t, env, actor, i).Ok? {
      WithdrawKeeps(t, env, actor, i);
    }
  }

  lemma ArchiveKept(t: Tables, env: Env, actor: Actor, i: Id)
    requires Valid(t)
    ensures ArchiveTx(t, env, actor, i).Ok? ==> Valid(ArchiveTx(t, env, actor, i).value)
  {
    hide Valid, ArchiveTx;
    if ArchiveTx(t, env, actor, i).Ok? {
      ArchiveKeeps(t, env, actor, i);
    }
  }

  lemma StartKept(t: Tables, env: Env, actor: Actor, params: SetupParams)
    requires Valid(t) && Sane(env)
    ensures Forest(t.catalog) && SetupsOk(t.setups)
    ensures StartTx(t, env, actor, params).Ok? ==> Valid(StartTx(t, env, actor, params).value.0)
  {
    hide Forest, SetupsOk, StartTx;
    if StartTx(t, env, actor, params).Ok? {
      StartKeeps(t, env, actor, params);
    }
  }
}
