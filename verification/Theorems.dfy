/** The promises of the legislative engine over every run of requests. */
module Theorems {
  import opened Prelude
  import opened Electoral
  import opened Territory
  import opened Tables
  import opened Transactions
  import opened Integrity
  import opened Preservation
  import opened Decisions
  import opened Drafting
  import opened Closing
  import opened Deadlines
  import opened Steps
  import opened Ledger
  import opened Runs

  // ------------------------------------------------------------ the integrity query

  /** The five mismatch queries of the stored check, all zero. */
  ghost predicate Healthy(t: Tables) {
    && DistinctBallots(t.ballots)
    && (forall k :: 0 <= k < |t.ballots| && t.ballots[k].proposal in t.proposals ==>
          && t.proposals[t.ballots[k].proposal].voteSnapshot == Some(t.ballots[k].snapshot)
          && InSnapshot(t, t.ballots[k].snapshot, t.ballots[k].user))
    && (forall i :: i in t.results ==> t.results[i].tally == TallyOf(t.ballots, i))
    && (forall i :: i in t.proposals && IsDecided(t.proposals[i].status) ==> i in t.results)
    && (forall i :: i in t.proposals ==>
          && t.proposals[i].count == |Signers(t.signatures, i)|
          && StoredCount(t.ballotCounts, i) == NBallots(t.ballots, i))
  }

  lemma HealthyVotes(t: Tables, i: Id)
    requires i in t.proposals && ProposalOk(t, i)
    ensures BallotsInside(t, i, t.proposals[i])
    ensures i in t.results ==> t.results[i].tally == TallyOf(t.ballots, i)
    ensures IsDecided(t.proposals[i].status) ==> i in t.results
    ensures t.proposals[i].count == |Signers(t.signatures, i)|
    ensures StoredCount(t.ballotCounts, i) == NBallots(t.ballots, i)
  {
    hide BallotsInside, ComputeResult, Rules;
  }

  lemma HealthyBallot(t: Tables, k: int)
    requires ProposalsOk(t) && 0 <= k < |t.ballots| && t.ballots[k].proposal in t.proposals
    ensures t.proposals[t.ballots[k].proposal].voteSnapshot == Some(t.ballots[k].snapshot)
    ensures InSnapshot(t, t.ballots[k].snapshot, t.ballots[k].user)
  {
    var i := t.ballots[k].proposal;
    assert ProposalOk(t, i);
    HealthyVotes(t, i);
    hide ProposalsOk, ProposalOk;
  }

  lemma RowsAreHealthy(t: Tables)
    requires ProposalsOk(t) && RefsOk(t) && DistinctBallots(t.ballots)
    ensures Healthy(t)
  {
    hide DistinctBallots, ProposalOk, InSnapshot, TallyOf, NBallots, Signers, StoredCount;
    forall i | i in t.proposals
      ensures i in t.results ==> t.results[i].tally == TallyOf(t.ballots, i)
      ensures IsDecided(t.proposals[i].status) ==> i in t.results
      ensures t.proposals[i].count == |Signers(t.signatures, i)|
      ensures StoredCount(t.ballotCounts, i) == NBallots(t.ballots, i)
    {
      assert ProposalOk(t, i);
      HealthyVotes(t, i);
    }
    forall k | 0 <= k < |t.ballots| && t.ballots[k].proposal in t.proposals
      ensures t.proposals[t.ballots[k].proposal].voteSnapshot == Some(t.ballots[k].snapshot)
      ensures InSnapshot(t, t.ballots[k].snapshot, t.ballots[k].user)
    {
      HealthyBallot(t, k);
    }
  }

  lemma ValidIsHealthy(t: Tables)
    requires Valid(t)
    ensures Healthy(t)
  {
    hide ProposalsOk, RefsOk, DistinctBallots, Healthy, IdsOk;
    RowsAreHealthy(t);
  }

  /** From an empty database over a catalog without cycles, the check is healthy for ever. */
  lemma AlwaysHealthy(catalog: Catalog, run: seq<Action>)
    requires Forest(catalog) && SaneRun(run)
    ensures Healthy(Run(EmptyTables(catalog), run))
  {
    hide Healthy, Valid;
    EmptyIsValid(catalog);
    RunIsValid(EmptyTables(catalog), run);
    ValidIsHealthy(Run(EmptyTables(catalog), run));
  }

  // ------------------------------------------------------------ edges

  /** The lifecycle, status by status: where a proposal may go next. */
  predicate Follows(kind: Kind, from: Status, to: Status) {
    match from
    case Draft => !kind.InitialSetup? && to in {Collecting, Archived}
    case Collecting =>
      || to.Expired?
      || (!kind.InitialSetup? && (to.Archived? || to == if kind.UrgentLaw? then InVoting else InDebate))
    case InDebate => to.Archived? || (to.InVoting? && (kind.NormalLaw? || kind.SetupChange?))
    case InVoting => to in {Approved, Rejected, QuorumNotReached}
    case Approved | Rejected | QuorumNotReached | Expired => to.Archived?
    case Archived => false
  }

  lemma EdgesAre(kind: Kind, from: Status, to: Status)
    ensures Edge(kind, from, to) <==> Follows(kind, from, to)
  {
  }

  predicate OneMoved(t: Tables, u: Tables, i: Id)
    requires i in t.proposals
  {
    i in u.proposals
    && (u.proposals[i].status == t.proposals[i].status ||
        (Follows(t.proposals[i].kind, t.proposals[i].status, u.proposals[i].status)
         && forall j :: j in t.proposals && j != i ==> j in u.proposals && u.proposals[j] == t.proposals[j]))
  }

  lemma StepEdge(t: Tables, u: Tables, k: Id, now: int, i: Id)
    requires Stepped(t, u, k, now) && i in t.proposals
    ensures OneMoved(t, u, i)
  {
    hide Edge, Follows, Timely, GovernStep, TablesStep;
    if i in u.proposals {
      EdgesAre(t.proposals[i].kind, t.proposals[i].status, u.proposals[i].status);
    }
  }

  /** Each request moves at most one proposal, along one edge of the lifecycle. */
  lemma OneEdge(t: Tables, env: Env, request: Request, i: Id)
    requires i in t.proposals && Valid(t)
    ensures OneMoved(t, Apply(t, env, request), i)
  {
    hide Valid, Apply, Stepped;
    ApplyMoves(t, env, request);
    var u := Apply(t, env, request);
    if u != t {
      hide OneMoved, Follows;
      var k :| Stepped(t, u, k, env.now);
      StepEdge(t, u, k, env.now, i);
    }
  }

  /** A proposal first appears as a draft, or as the initial plebiscite already in voting. */
  lemma FirstStatus(t: Tables, env: Env, request: Request, i: Id)
    requires Valid(t) && i !in t.proposals && i in Apply(t, env, request).proposals
    ensures var q := Apply(t, env, request).proposals[i];
            q.status.Draft? || (q.status.InVoting? && q.kind.InitialSetup?)
  {
    hide Valid, Apply, Edge, Timely, GovernStep, TablesStep;
    ApplyMoves(t, env, request);
    var u := Apply(t, env, request);
    var k :| Stepped(t, u, k, env.now);
  }

  // ------------------------------------------------------------ a closed vote is final

  lemma StepFinal(t: Tables, u: Tables, i: Id, now: int, j: Id)
    requires Stepped(t, u, i, now) && j in t.results
    requires j in t.proposals ==> !t.proposals[j].status.InVoting?
    ensures j in u.results && u.results[j] == t.results[j]
    ensures NBallots(u.ballots, j) == NBallots(t.ballots, j) && TallyOf(u.ballots, j) == TallyOf(t.ballots, j)
  {
    hide GovernStep, ProposalStep;
    if j != i {
      BallotsOfOthers(t, u, i, j);
    }
  }

  lemma ResultMeansClosed(t: Tables, j: Id)
    requires Valid(t) && j in t.results && j in t.proposals
    ensures !t.proposals[j].status.InVoting?
  {
    assert ProposalOk(t, j) && VoteOk(t, j, t.proposals[j]);
    hide Valid, ProposalOk, ResultOk, BallotsInside;
  }

  /** No ballot is added and no result changes once a vote is closed, whatever follows. */
  lemma {:induction false} ClosedIsFinal(t: Tables, run: seq<Action>, j: Id)
    requires Valid(t) && SaneRun(run) && j in t.results
    ensures var u := Run(t, run);
            && j in u.results && u.results[j] == t.results[j]
            && NBallots(u.ballots, j) == NBallots(t.ballots, j)
            && u.results[j].tally == t.results[j].tally == TallyOf(u.ballots, j)
  {
    hide Valid, SaneRun, Apply, Stepped, NBallots, TallyOf, Healthy;
    if run == [] {
      ResultIsTally(t, j);
    } else {
      var init, last := run[..|run| - 1], run[|run| - 1];
      SanePrefix(run);
      ClosedIsFinal(t, init, j);
      RunIsValid(t, init);
      var m := Run(t, init);
      var u := Apply(m, last.env, last.request);
      ApplyMoves(m, last.env, last.request);
      if u != m {
        var i :| Stepped(m, u, i, last.env.now);
        if j in m.proposals {
          ResultMeansClosed(m, j);
        }
        StepFinal(m, u, i, last.env.now, j);
      }
    }
  }

  lemma ResultIsTally(t: Tables, j: Id)
    requires Valid(t) && j in t.results
    ensures t.results[j].tally == TallyOf(t.ballots, j)
  {
    ValidIsHealthy(t);
    hide Valid;
  }

  lemma VotedRow(t: Tables, i: Id)
    requires i in t.proposals && t.proposals[i].voteSnapshot.Some? && ProposalOk(t, i)
    ensures !t.proposals[i].status.Draft? && VoteRules(t, t.proposals[i]).Ok?
  {
    hide ResultOk, BallotsInside, Rules, ValidParams, CollectionOk;
  }

  lemma VoteRulesKept(t: Tables, u: Tables, i: Id)
    requires i in t.proposals && t.proposals[i].voteSnapshot.Some? && !t.proposals[i].status.Draft?
    requires VoteRules(t, t.proposals[i]).Ok? && Kept(t, u)
    ensures i in u.proposals && VoteRules(u, u.proposals[i]) == VoteRules(t, t.proposals[i])
  {
    assert RowKept(t, u, i);
    hide Rules, Covered;
  }

  /** The electorate, quorum and majority of a vote, once open, never change. */
  lemma VoteRulesAreFixed(t: Tables, run: seq<Action>, i: Id)
    requires i in t.proposals && t.proposals[i].voteSnapshot.Some? && SaneRun(run) && Valid(t)
    ensures i in Run(t, run).proposals
    ensures VoteRules(t, t.proposals[i]).Ok?
            && VoteRules(Run(t, run), Run(t, run).proposals[i]) == VoteRules(t, t.proposals[i])
  {
    assert ProposalOk(t, i);
    hide *;
    VotedRow(t, i);
    RunKeeps(t, run);
    VoteRulesKept(t, Run(t, run), i);
  }

  // ------------------------------------------------------------ reaching the target

  /** A new signature leaves collection exactly when it makes the count equal the target;
      the answer carries the stored count and status. */
  lemma TargetClosesCollection(t: Tables, env: Env, actor: Actor, i: Id, key: Option<string>)
    requires Valid(t) && SignTx(t, env, actor, i, key).Ok? && SignTx(t, env, actor, i, key).value.0 != t
    ensures var (u, response) := SignTx(t, env, actor, i, key).value;
            && i in t.proposals && i in u.proposals && u.proposals[i].target.Some?
            && u.proposals[i].count == t.proposals[i].count + 1 <= u.proposals[i].target.value
            && (if u.proposals[i].count == u.proposals[i].target.value
                then u.proposals[i].status == (if t.proposals[i].kind.UrgentLaw? then InVoting else InDebate)
                else u.proposals[i].status.Collecting?)
            && u.proposals[i].target == t.proposals[i].target
            && |t.trail| < |u.trail|
            && u.trail[|t.trail|] == SignatureAdded(i, u.proposals[i].count, u.proposals[i].target.value)
            && response == SignatureState(u.proposals[i].status, u.proposals[i].count, u.proposals[i].target.value,
                                          true)
  {
    hide SignTx, Valid, Consume, Signed, CloseCollection, AfterSigning, AfterCollection;
    AfterSigningEvent(t, env, actor, i, key);
    SignDelta(t, env, actor, i, key);
    SignAnswer(t, env, actor, i, key);
    NextPhase(t.proposals[i].kind);
    var m := AfterSigning(t, env, actor, i);
    SignedIs(t, m, actor.user, i);
    CollectingShape(t, i);
    if m.proposals[i].count >= m.proposals[i].target.value {
      ClosedCollectionRow(m, env, i);
    }
  }

  lemma NextPhase(kind: Kind)
    ensures AfterCollection(kind).Some? ==>
              AfterCollection(kind) == Some(if kind.UrgentLaw? then InVoting else InDebate)
  {
  }

  /** The first event of a signature carries the new count and the stored target. */
  lemma AfterSigningEvent(t: Tables, env: Env, actor: Actor, i: Id, key: Option<string>)
    requires SignTx(t, env, actor, i, key).Ok? && SignTx(t, env, actor, i, key).value.0 != t
    ensures var u := SignTx(t, env, actor, i, key).value.0;
            && i in t.proposals && t.proposals[i].target.Some? && |t.trail| < |u.trail|
            && u.trail[|t.trail|] == SignatureAdded(i, t.proposals[i].count + 1, t.proposals[i].target.value)
  {
    hide SignTx, Consume, Taken, CloseCollection, Signed, AfterSigning;
    SignDelta(t, env, actor, i, key);
    AfterSigningLedger(t, env, actor, i);
    SignedIs(t, AfterSigning(t, env, actor, i), actor.user, i);
    var m := AfterSigning(t, env, actor, i);
    if m.proposals[i].count >= m.proposals[i].target.value {
      CloseCollectionLedger(m, env, i);
    }
  }

  /** The answer to a signature, in terms of the rows after it was written. */
  ghost predicate Answers(t: Tables, env: Env, actor: Actor, i: Id, response: Response) {
    && i in t.proposals && t.proposals[i].target.Some? && Consume(t, env.now, actor.session, SignProposal, i).Ok?
    && var m := AfterSigning(t, env, actor, i);
       var n := t.proposals[i].count + 1;
       && i in m.proposals && m.proposals[i].target == t.proposals[i].target
       && response == SignatureState(if n >= t.proposals[i].target.value
                                     && CloseCollection(m, env, i, m.proposals[i]).Ok?
                                     then CloseCollection(m, env, i, m.proposals[i]).value.1 else Collecting,
                                     n, t.proposals[i].target.value, true)
  }

  lemma SignAnswer(t: Tables, env: Env, actor: Actor, i: Id, key: Option<string>)
    requires SignTx(t, env, actor, i, key).Ok? && SignTx(t, env, actor, i, key).value.0 != t
    ensures Answers(t, env, actor, i, SignTx(t, env, actor, i, key).value.1)
  {
    hide Consume, CloseCollection, Store, Lookup, InSnapshot, IsActive, Consumed;
    SignPassed(t, env, actor, i, key);
    ConsumeDelta(t, env.now, actor.session, SignProposal, i);
    var t1 := Consume(t, env.now, actor.session, SignProposal, i).value;
    AdjustedIs(t1.(signatures := t1.signatures[(i, actor.user) := true]), i, t.proposals[i]);
    hide AdjustCount;
  }

  lemma ClosedCollectionRow(m: Tables, env: Env, i: Id)
    requires i in m.proposals && m.proposals[i].status.Collecting? && CloseCollection(m, env, i, m.proposals[i]).Ok?
    ensures var (u, status) := CloseCollection(m, env, i, m.proposals[i]).value;
            && i in u.proposals && u.proposals[i].status == status
            && Some(status) == AfterCollection(m.proposals[i].kind)
            && u.proposals[i].count == m.proposals[i].count && u.proposals[i].target == m.proposals[i].target
  {
    if m.proposals[i].kind.UrgentLaw? {
      hide OpenVoting, VotingOpened;
      assert OpenVoting(m, env, i, m.proposals[i]).Ok?;
      OpenedVoteRow(m, env, i);
    } else {
      hide OpenVoting, Rules;
    }
  }

  lemma OpenedVoteRow(m: Tables, env: Env, i: Id)
    requires i in m.proposals && OpenVoting(m, env, i, m.proposals[i]).Ok?
    ensures var u := OpenVoting(m, env, i, m.proposals[i]).value;
            && i in u.proposals && u.proposals[i].status.InVoting?
            && u.proposals[i].count == m.proposals[i].count && u.proposals[i].target == m.proposals[i].target
  {
    OpenVotingDelta(m, env, i, m.proposals[i]);
    hide OpenVoting, Rules;
  }

  /** While a proposal collects, its count stays below a target no larger than the
      electorate, and its active signers are members of it. */
  lemma CollectionBounds(t: Tables, i: Id)
    requires i in t.proposals && t.proposals[i].status.Collecting? && Valid(t)
    ensures var p := t.proposals[i];
            && p.target.Some? && p.collectionSnapshot.Some? && p.collectionSnapshot.value in t.snapshots
            && var electorate := t.snapshots[p.collectionSnapshot.value].members;
               && p.count == |Signers(t.signatures, i)| < p.target.value <= |electorate|
               && Signers(t.signatures, i) <= electorate
  {
    var p := t.proposals[i];
    assert ProposalOk(t, i) && Shape(p) && CollectionOk(t, i, p);
    assert SnapshotOk(t, p.collectionSnapshot.value);
    hide Valid, ProposalOk, VoteOk, ValidParams, Rules;
  }

  // ------------------------------------------------------------ drafts cannot be withdrawn

  /** Withdrawing works exactly for the author of a collecting proposal. A draft passes
      every check of the use case but archiving it breaks the column constraint between
      draft status and publication instant, so the transaction fails. */
  lemma WithdrawIff(t: Tables, env: Env, actor: Actor, i: Id)
    requires Valid(t)
    ensures WithdrawTx(t, env, actor, i).Ok? <==>
            i in t.proposals && t.proposals[i].author == actor.user && t.proposals[i].status.Collecting?
    ensures i in t.proposals && t.proposals[i].author == actor.user && t.proposals[i].status.Draft? ==>
              WithdrawTx(t, env, actor, i) == Err(Internal)
  {
    hide Valid, Rejection;
    if i in t.proposals {
      RowIsOk(t, i);
      OwnKind(t, i);
      hide ProposalOk;
    }
  }

  lemma OwnKind(t: Tables, i: Id)
    requires i in t.proposals && ProposalOk(t, i)
    ensures RowCheck(t.proposals[i])
    ensures t.proposals[i].status.Draft? || t.proposals[i].status.Collecting? ==> CitizenCreatable(t.proposals[i].kind)
  {
    hide CollectionOk, VoteOk;
  }

  // ------------------------------------------------------------ setups

  /** A package is proposed while its proposal is open, a numbered version exactly when
      the vote approved it, and rejected otherwise. */
  lemma PackageFollows(t: Tables, i: Id)
    requires i in t.proposals && t.proposals[i].proposedSetup.Some? && Valid(t)
    ensures t.proposals[i].proposedSetup.value in t.setups
    ensures var status := t.setups[t.proposals[i].proposedSetup.value].status;
            && (status.Proposed? <==> IsOpen(t.proposals[i].status))
            && (status.Adopted? || status.Superseded? <==> WasApproved(t, i))
            && (status.SetupRejected? <==> !IsOpen(t.proposals[i].status) && !WasApproved(t, i))
            && (t.proposals[i].status.Approved? ==> WasApproved(t, i))
  {
    hide Valid, ValidParams, ComputeResult, TallyOf, Rules, CollectionOk, BallotsInside;
    RowIsOk(t, i);
    PackageIsOk(t, i);
  }

  predicate ApprovedTogether(t: Tables, i: Id, j: Id) {
    && Plebiscite(t, i) && Plebiscite(t, j) && WasApproved(t, i) && WasApproved(t, j)
    && t.proposals[i].jurisdiction == t.proposals[j].jurisdiction
  }

  /** Laws exist only where a setup applies; a plebiscite is open only where none does, one
      at a time, and at most one is approved for a jurisdiction. */
  ghost predicate PlebiscitesAreRare(t: Tables) {
    && (forall i :: i in t.proposals && !t.proposals[i].kind.InitialSetup? ==>
          EffectiveSetup(t, t.proposals[i].jurisdiction).Some?)
    && (forall i :: Plebiscite(t, i) && t.proposals[i].status.InVoting? ==>
          EffectiveSetup(t, t.proposals[i].jurisdiction).None?)
    && (forall i, j :: OpenTogether(t, i, j) ==> i == j)
    && (forall i, j :: ApprovedTogether(t, i, j) ==> i == j)
  }

  predicate OpenTogether(t: Tables, i: Id, j: Id) {
    Plebiscite(t, i) && Plebiscite(t, j) && t.proposals[i].status.InVoting? && t.proposals[j].status.InVoting?
  }

  /** The versions of every jurisdiction are 1 to k and exactly version k is adopted. */
  ghost predicate VersionsAreExact(t: Tables) {
    && (forall j, n: nat :: n in Versions(t.setups, j) <==> 1 <= n <= MaxVersion(t.setups, j))
    && (forall v :: v in t.setups ==>
          (t.setups[v].status.Adopted? <==>
            t.setups[v].version == Some(MaxVersion(t.setups, t.setups[v].jurisdiction))))
  }

  lemma CoverMakesRare(t: Tables)
    requires LawsCovered(t) && VotesUncovered(t) && OneOpen(t) && OneApproved(t)
    ensures PlebiscitesAreRare(t)
  {
    hide Covered, WasApproved;
  }

  lemma SetupsMakeExact(t: Tables)
    requires SetupsOk(t.setups)
    ensures VersionsAreExact(t)
  {
    hide SetupsOk, Versions, MaxVersion;
    forall j
      ensures forall n: nat :: n in Versions(t.setups, j) <==> 1 <= n <= MaxVersion(t.setups, j)
      ensures forall v :: v in t.setups && t.setups[v].jurisdiction == j ==>
                (t.setups[v].status.Adopted? <==> t.setups[v].version == Some(MaxVersion(t.setups, j)))
    {
      VersionsAreOneToK(t.setups, j);
    }
  }

  lemma ValidGovernance(t: Tables)
    requires Valid(t)
    ensures PlebiscitesAreRare(t) && VersionsAreExact(t)
  {
    assert SetupsOk(t.setups) && LawsCovered(t) && VotesUncovered(t) && OneOpen(t) && OneApproved(t);
    hide *;
    CoverMakesRare(t);
    SetupsMakeExact(t);
  }

  /** Both hold in every reachable state. */
  lemma GovernanceAlwaysHolds(catalog: Catalog, run: seq<Action>)
    requires Forest(catalog) && SaneRun(run)
    ensures var t := Run(EmptyTables(catalog), run); PlebiscitesAreRare(t) && VersionsAreExact(t)
  {
    hide *;
    EmptyIsValid(catalog);
    RunIsValid(EmptyTables(catalog), run);
    ValidGovernance(Run(EmptyTables(catalog), run));
  }

  // ------------------------------------------------------------ quotas

  /** The proposals of an author and kind published under the quota of a year. */
  function QuotaOf(t: Tables, author: Id, kind: Kind, year: int): nat {
    |set i | i in t.proposals && t.proposals[i].author == author && t.proposals[i].kind == kind
             && t.proposals[i].quotaYear == Some(year)|
  }

  lemma QuotaOfIsUsed(t: Tables, author: Id, kind: Kind, year: int)
    ensures QuotaOf(t, author, kind, year) == QuotaUsed(t, author, kind, year)
  {
    assert QuotaRows(t, author, kind, year) ==
           set i | i in t.proposals && t.proposals[i].author == author && t.proposals[i].kind == kind
                   && t.proposals[i].quotaYear == Some(year);
  }

  /** The publication of a law uses at most one unit of its author's quota for the kind and
      year and stays within the limit of the setup it was published under. */
  lemma PublishWithinQuota(t: Tables, env: Env, actor: Actor, i: Id, key: Option<string>)
    requires Valid(t) && PublishTx(t, env, actor, i, key).Ok? && PublishTx(t, env, actor, i, key).value.0 != t
    ensures var u := PublishTx(t, env, actor, i, key).value.0;
            && i in u.proposals && u.proposals[i].setupVersion.Some? && u.proposals[i].setupVersion.value in t.setups
            && var p := u.proposals[i];
               var params := t.setups[p.setupVersion.value].params;
               var before, after := QuotaOf(t, p.author, p.kind, env.year), QuotaOf(u, p.author, p.kind, env.year);
               match p.kind
               case NormalLaw => after <= before + 1 <= params.quotaNormalPerYear
               case UrgentLaw => after <= before + 1 <= params.quotaUrgentPerYear
               case _ => true
  {
    hide PublishTx, Valid, Covered, PublishedAs, QuotaUsed, QuotaOf, EffectiveSetup;
    PublishDelta(t, env, actor, i, key);
    PublishPassed(t, env, actor, i, key);
    var u := PublishTx(t, env, actor, i, key).value.0;
    OneMoreUsed(t, u, env, i, EffectiveSetup(t, t.proposals[i].jurisdiction).value);
    QuotaOfIsUsed(t, t.proposals[i].author, t.proposals[i].kind, env.year);
    QuotaOfIsUsed(u, t.proposals[i].author, t.proposals[i].kind, env.year);
  }

  lemma OneMoreUsed(t: Tables, u: Tables, env: Env, i: Id, setup: Id)
    requires PublishedAs(t, u, env, i, setup)
    ensures i in u.proposals && i in t.proposals && u.proposals[i].setupVersion == Some(setup) && setup in t.setups
    ensures u.proposals[i].author == t.proposals[i].author && u.proposals[i].kind == t.proposals[i].kind
    ensures var p := t.proposals[i];
            QuotaUsed(u, p.author, p.kind, env.year) <= QuotaUsed(t, p.author, p.kind, env.year) + 1
  {
    var p := t.proposals[i];
    hide Spent, MinCount, SignatureBp, Rules, Eligible;
    var before, after := QuotaRows(t, p.author, p.kind, env.year), QuotaRows(u, p.author, p.kind, env.year);
    assert after <= before + {i};
    SubsetSize(after, before + {i});
  }
}
