/** Deadline transactions never fail on stored data that satisfies the invariant, and
    one pass over the due proposals leaves nothing due. */
module Deadlines {
  import opened Prelude
  import opened Electoral
  import opened Territory
  import opened Tables
  import opened Transactions
  import opened Integrity
  import opened Preservation
  import opened Decisions
  import opened Closing

  // ------------------------------------------------------------ closing a vote

  /** Distinct voters from the electorate cannot outnumber it. */
  lemma TallyWithin(t: Tables, i: Id)
    requires ProposalsOk(t) && SnapshotsOk(t) && DistinctBallots(t.ballots)
    requires i in t.proposals && t.proposals[i].voteSnapshot.Some?
    ensures t.proposals[i].voteSnapshot.value in t.snapshots
    ensures TallyOf(t.ballots, i).Participation() <= t.snapshots[t.proposals[i].voteSnapshot.value].memberCount
  {
    var p := t.proposals[i];
    assert ProposalOk(t, i);
    var s := p.voteSnapshot.value;
    assert SnapshotOk(t, s);
    VotersCount(t.ballots, i);
    ChoicesSum(t.ballots, i);
    hide NBallots, TallyOf, ProposalsOk, SnapshotsOk, DistinctBallots;
    assert Voters(t.ballots, i) <= t.snapshots[s].members;
    SubsetSize(Voters(t.ballots, i), t.snapshots[s].members);
  }

  /** What an open vote stands on. */
  lemma OpenVote(t: Tables, i: Id)
    requires Valid(t) && i in t.proposals && t.proposals[i].status.InVoting?
    ensures var p := t.proposals[i];
            && RowCheck(p) && i !in t.results && Unnumbered(t, i)
            && p.voteSnapshot.Some? && p.voteSetupVersion.Some? && p.voteEndsAt.Some?
            && SnapshotRef(t, i, p.voteSnapshot.value, VotingPhase) && SetupRef(t, p.voteSetupVersion.value)
            && 0 < t.snapshots[p.voteSnapshot.value].memberCount < U64
            && (p.proposedSetup.Some? ==>
                  p.proposedSetup.value in t.setups && t.setups[p.proposedSetup.value].status.Proposed?)
  {
    var p := t.proposals[i];
    assert ProposalOk(t, i) && PackageOk(t, i);
    assert Shape(p) && VoteOk(t, i, p);
    assert SnapshotOk(t, p.voteSnapshot.value);
    assert p.proposedSetup.Some? ==> VersionOk(t.setups, p.proposedSetup.value);
    hide Valid, ProposalOk, ValidParams, ResultOk, BallotsInside, Rules, Versions;
  }

  lemma SettleSucceeds(t: Tables, i: Id, package: Option<Id>, approved: bool)
    requires package.Some? ==> package.value in t.setups && t.setups[package.value].status.Proposed?
    ensures Settle(t, i, package, approved).Ok?
    ensures Settle(t, i, package, approved).value.results == t.results
  {
    hide Rejection, Adoption, MaxVersion;
  }

  lemma CloseVoteSucceeds(t: Tables, env: Env, i: Id, tally: Tally)
    requires i in t.proposals && t.proposals[i].status.InVoting? && RowCheck(t.proposals[i])
    requires VoteRules(t, t.proposals[i]).Ok?
    requires var p := t.proposals[i];
             && (p.proposedSetup.Some? ==>
                   p.proposedSetup.value in t.setups && t.setups[p.proposedSetup.value].status.Proposed?)
             && var electorate := VoteRules(t, p).value.0;
                0 < electorate && tally.Participation() <= electorate
    ensures CloseVote(t, env, i, tally).Ok?
    ensures CloseVote(t, env, i, tally).value.0.results == t.results
  {
    hide VoteRules, MinCount, MajorityRequired, Settle;
    var p := t.proposals[i];
    var (electorate, quorumBp, majorityBp) := VoteRules(t, p).value;
    var to := ComputeResult(tally, electorate, quorumBp, majorityBp).figures.outcome.Status();
    var t1 := t.(proposals := t.proposals[i := p.(status := to, closedAt := Some(env.now))]);
    SettleSucceeds(t1, i, p.proposedSetup, to.Approved?);
  }

  lemma TallyFits(t: Tables, i: Id)
    requires Valid(t) && i in t.proposals && t.proposals[i].voteSnapshot.Some?
    ensures t.proposals[i].voteSnapshot.value in t.snapshots
    ensures TallyOf(t.ballots, i).Participation() <= t.snapshots[t.proposals[i].voteSnapshot.value].memberCount
  {
    assert ProposalsOk(t) && SnapshotsOk(t) && DistinctBallots(t.ballots);
    hide *;
    TallyWithin(t, i);
  }

  /** A due vote always closes: the tally fits the electorate, the electorate is not
      empty and the package is still proposed. */
  lemma CloseSucceeds(t: Tables, env: Env, i: Id)
    requires Valid(t) && i in t.proposals && VoteDue(t.proposals[i], env.now)
    ensures CloseTx(t, env, i).Ok? && CloseTx(t, env, i).value.1.Some? && IsDecided(CloseTx(t, env, i).value.1.value)
  {
    hide Valid, TallyOf, ValidParams, Unnumbered, Rules, CloseVote;
    OpenVote(t, i);
    TallyFits(t, i);
    CloseVoteSucceeds(t, env, i, TallyOf(t.ballots, i));
  }

  lemma CloseKeeps(t: Tables, env: Env, i: Id)
    requires Valid(t) && CloseTx(t, env, i).Ok?
    ensures Valid(CloseTx(t, env, i).value.0)
    ensures CloseTx(t, env, i).value.1.Some? <==> i in t.proposals && VoteDue(t.proposals[i], env.now)
    ensures CloseTx(t, env, i).value.1.None? ==> CloseTx(t, env, i).value.0 == t
  {
    if i in t.proposals && VoteDue(t.proposals[i], env.now) {
      OpenVote(t, i);
      CloseSucceeds(t, env, i);
      hide *;
      var figures := CloseDelta(t, env, i);
      ClosedKeeps(t, CloseTx(t, env, i).value.0, i, figures, env.now);
    }
  }

  // ------------------------------------------------------------ ending a phase

  lemma NoVotingSnapshot(t: Tables, i: Id)
    requires SnapshotsOk(t) && i in t.proposals && t.proposals[i].voteSnapshot.None?
    ensures forall s :: s in t.snapshots ==> !(t.snapshots[s].proposal == i && t.snapshots[s].phase.VotingPhase?)
  {
    assert forall s :: s in t.snapshots ==> SnapshotOk(t, s);
  }

  lemma DebateShape(t: Tables, i: Id)
    requires ProposalsOk(t) && i in t.proposals && t.proposals[i].status.InDebate?
    ensures var p := t.proposals[i];
            RowCheck(p) && p.debateEndsAt.Some? && p.voteSnapshot.None? && (p.kind.NormalLaw? || p.kind.SetupChange?)
  {
    assert ProposalOk(t, i) && Shape(t.proposals[i]);
    hide ProposalsOk, ProposalOk;
  }

  lemma DebateRow(t: Tables, i: Id)
    requires Valid(t) && i in t.proposals && t.proposals[i].status.InDebate?
    ensures RowCheck(t.proposals[i]) && t.proposals[i].debateEndsAt.Some?
    ensures t.proposals[i].kind.NormalLaw? || t.proposals[i].kind.SetupChange?
    ensures Covered(t, t.proposals[i].jurisdiction)
    ensures forall s :: s in t.snapshots ==> !(t.snapshots[s].proposal == i && t.snapshots[s].phase.VotingPhase?)
  {
    hide ProposalsOk, Covered, SnapshotsOk, RowCheck;
    DebateShape(t, i);
    NoVotingSnapshot(t, i);
  }

  lemma DebateSucceeds(t: Tables, env: Env, i: Id)
    requires Valid(t) && i in t.proposals && t.proposals[i].status.InDebate?
    ensures Covered(t, t.proposals[i].jurisdiction)
    ensures var r := OpenVoting(t, env, i, t.proposals[i]);
            if Eligible(env, t.proposals[i].jurisdiction) == {} then r == Err(Conflict(EmptyElectorate)) else r.Ok?
  {
    hide Valid, Covered, Rules;
    DebateRow(t, i);
  }

  lemma CollectingRow(t: Tables, i: Id)
    requires Valid(t) && i in t.proposals && t.proposals[i].status.Collecting?
    ensures RowCheck(t.proposals[i]) && t.proposals[i].collectEndsAt.Some?
  {
    assert ProposalOk(t, i) && Shape(t.proposals[i]);
    hide Valid, ProposalOk;
  }

  /** The outcome of a due phase depends only on its kind and on whether anybody may
      still vote; no other error is reachable. */
  lemma AdvanceSucceeds(t: Tables, env: Env, i: Id)
    requires Valid(t) && i in t.proposals && DeadlinePassed(t.proposals[i], env.now)
    ensures AdvanceTx(t, env, i).Ok? &&
            AdvanceTx(t, env, i).value.1 ==
            Some(if t.proposals[i].status.Collecting? then Expired
                 else if Eligible(env, t.proposals[i].jurisdiction) == {} then Archived
                 else InVoting)
  {
    hide Valid, OpenVoting, Rejection, Covered;
    if t.proposals[i].status.InDebate? {
      DebateRow(t, i);
      DebateSucceeds(t, env, i);
    } else {
      CollectingRow(t, i);
    }
  }
}
