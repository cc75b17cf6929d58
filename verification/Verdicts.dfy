/** From ballots to law: when a vote approves, and which setup then applies. */
module Verdicts {
  import opened Prelude
  import opened Electoral
  import opened Territory
  import opened Tables
  import opened Transactions
  import opened Integrity
  import opened Preservation
  import opened Decisions
  import opened Closing
  import opened Drafting
  import opened Deadlines
  import opened Ledger
  import opened Runs
  import opened Passes
  import opened Theorems
  import opened Acts

  // ------------------------------------------------------------ the ballots and the result

  lemma RulesVotable(setups: map<Id, Setup>, v: Id, kind: Kind)
    requires v in setups && ValidParams(setups[v].params)
    ensures ShareRange(Rules(setups[v].params, kind).quorumBp)
            && MajorityRange(Rules(setups[v].params, kind).majorityBp)
  {
  }

  lemma VotedParts(t: Tables, i: Id)
    requires i in t.proposals && i in t.results && Valid(t)
    ensures var p := t.proposals[i];
            && ResultOk(t, i, p) && p.voteSnapshot.Some? && p.voteSetupVersion.Some?
            && SetupRef(t, p.voteSetupVersion.value) && p.voteSnapshot.value in t.snapshots
            && SnapshotOk(t, p.voteSnapshot.value)
  {
    RowIsOk(t, i);
    assert VoteOk(t, i, t.proposals[i]) && SnapshotsOk(t);
    hide Valid, ProposalOk, ValidParams, Rules, SnapshotOk, BallotsInside, TallyOf, ComputeResult;
  }

  lemma VotersAreBallots(t: Tables, i: Id)
    requires Valid(t)
    ensures |Voters(t.ballots, i)| == TallyOf(t.ballots, i).Participation()
  {
    assert DistinctBallots(t.ballots);
    hide *;
    VotersCount(t.ballots, i);
    ChoicesSum(t.ballots, i);
  }

  // ------------------------------------------------------------ which setup applies

  lemma AdoptedApplies(t: Tables, j: Id, v: Id)
    requires SetupsOk(t.setups) && IsAdopted(t.setups, j, v)
    ensures EffectiveSetup(t, j) == Some(v)
  {
    hide SetupsOk;
    assert HasAdopted(t.setups, j) && HitAt(t, j, 0);
    NearestIs(t, j, 0);
    OneAdopted(t.setups, j, v, AdoptedRow(t.setups, j));
  }

  lemma AdoptsAdopted(s: map<Id, Setup>, r: map<Id, Setup>, v: Id, source: Id)
    requires Adopts(s, r, v, source)
    ensures v in s && IsAdopted(r, s[v].jurisdiction, v) && r[v].params == s[v].params
  {
    hide MaxVersion;
  }

  /** The setup in force for `j` is `v`, with the parameters it was proposed with. */
  ghost predicate Applies(u: Tables, j: Id, t: Tables, v: Id) {
    && EffectiveSetup(u, j) == Some(v)
    && v in t.setups && v in u.setups && u.setups[v].params == t.setups[v].params
  }

  lemma AdoptionApplies(t: Tables, u: Tables, v: Id, source: Id)
    requires Adopts(t.setups, u.setups, v, source) && SetupsOk(u.setups)
    ensures v in t.setups && Applies(u, t.setups[v].jurisdiction, t, v)
  {
    AdoptsAdopted(t.setups, u.setups, v, source);
    hide SetupsOk, Adopts, EffectiveSetup;
    AdoptedApplies(u, t.setups[v].jurisdiction, v);
  }

  /** An approved setup applies in its jurisdiction from the moment its vote is closed. */
  lemma ApprovedApplies(t: Tables, env: Env, i: Id)
    requires i in t.proposals && VoteDue(t.proposals[i], env.now) && t.proposals[i].proposedSetup.Some? && Valid(t)
    ensures CloseTx(t, env, i).Ok?
    ensures CloseTx(t, env, i).value.1 == Some(Approved) ==>
              Applies(CloseTx(t, env, i).value.0, t.proposals[i].jurisdiction, t, t.proposals[i].proposedSetup.value)
  {
    hide *;
    CloseSucceeds(t, env, i);
    CloseKeeps(t, env, i);
    VoteIsOpen(t, env, i);
    if CloseTx(t, env, i).value.1 == Some(Approved) {
      var u := CloseTx(t, env, i).value.0;
      var figures := CloseDelta(t, env, i);
      ClosedParts(t, u, i, figures, env.now);
      ApprovedOnly(figures.outcome);
      SettledAdopts(t, u, i, figures);
      SetupsValid(u);
      AdoptionApplies(t, u, t.proposals[i].proposedSetup.value, i);
    }
  }

  lemma VoteIsOpen(t: Tables, env: Env, i: Id)
    requires i in t.proposals && VoteDue(t.proposals[i], env.now) && Valid(t)
    ensures Unnumbered(t, i) && i !in t.results && t.proposals[i].status.InVoting?
    ensures t.proposals[i].proposedSetup.Some? ==>
              t.proposals[i].proposedSetup.value in t.setups
              && t.setups[t.proposals[i].proposedSetup.value].jurisdiction == t.proposals[i].jurisdiction
  {
    hide Valid;
    OpenVote(t, i);
    PackageIsOk(t, i);
  }

  lemma ApprovedOnly(outcome: Outcome)
    ensures outcome.Status().Approved? <==> outcome.OApproved?
  {
  }

  lemma SettledAdopts(t: Tables, u: Tables, i: Id, figures: ResultCalc)
    requires PackageSettled(t, u, i, figures) && t.proposals[i].proposedSetup.Some? && figures.outcome.OApproved?
    ensures Adopts(t.setups, u.setups, t.proposals[i].proposedSetup.value, i)
  {
    hide Adopts, Rejection;
  }

  lemma SettledRejects(t: Tables, u: Tables, i: Id, figures: ResultCalc)
    requires PackageSettled(t, u, i, figures) && (t.proposals[i].proposedSetup.None? || !figures.outcome.OApproved?)
    ensures u.setups == Rejection(t.setups, t.proposals[i].proposedSetup)
  {
    hide Adopts, Rejection;
  }

  lemma SetupsValid(t: Tables)
    requires Valid(t)
    ensures SetupsOk(t.setups)
  {
    hide SetupsOk;
  }

  /** The same versions are adopted in both. */
  ghost predicate SameAdopted(s: map<Id, Setup>, r: map<Id, Setup>) {
    forall j, v :: IsAdopted(s, j, v) <==> IsAdopted(r, j, v)
  }

  lemma SameApplies(t: Tables, u: Tables, j: Id)
    requires u.catalog == t.catalog && SameAdopted(t.setups, u.setups) && SetupsOk(t.setups)
    ensures EffectiveSetup(u, j) == EffectiveSetup(t, j)
  {
    hide SetupsOk, IsAdopted;
    forall k
      ensures HasAdopted(t.setups, k) <==> HasAdopted(u.setups, k)
    {
      if v :| IsAdopted(t.setups, k, v) {
        assert IsAdopted(u.setups, k, v);
      }
      if v :| IsAdopted(u.setups, k, v) {
        assert IsAdopted(t.setups, k, v);
      }
    }
    assert forall n :: HitAt(t, j, n) <==> HitAt(u, j, n);
    if Covered(t, j) {
      var n := NearestHit(t, j);
      NearestIs(u, j, n);
      var k := Up(t.catalog, j, n).value;
      OneAdopted(t.setups, k, AdoptedRow(t.setups, k), AdoptedRow(u.setups, k));
    }
  }

  lemma RowsCatalog(t: Tables, u: Tables, i: Id, figures: ResultCalc, now: int)
    requires RowsClosed(t, u, i, figures, now)
    ensures u.catalog == t.catalog
  {
  }

  lemma RejectionAdopts(s: map<Id, Setup>, package: Option<Id>)
    ensures SameAdopted(s, Rejection(s, package))
  {
  }

  /** A vote that does not approve a setup changes the setup of no jurisdiction. */
  lemma OthersKeepTheirSetup(t: Tables, env: Env, i: Id, j: Id)
    requires i in t.proposals && VoteDue(t.proposals[i], env.now) && Valid(t)
    ensures CloseTx(t, env, i).Ok?
    ensures t.proposals[i].proposedSetup.None? || CloseTx(t, env, i).value.1 != Some(Approved) ==>
              EffectiveSetup(CloseTx(t, env, i).value.0, j) == EffectiveSetup(t, j)
  {
    hide *;
    CloseSucceeds(t, env, i);
    VoteIsOpen(t, env, i);
    SetupsValid(t);
    if t.proposals[i].proposedSetup.None? || CloseTx(t, env, i).value.1 != Some(Approved) {
      var u := CloseTx(t, env, i).value.0;
      var figures := CloseDelta(t, env, i);
      ClosedParts(t, u, i, figures, env.now);
      ApprovedOnly(figures.outcome);
      SettledRejects(t, u, i, figures);
      RowsCatalog(t, u, i, figures, env.now);
      RejectionAdopts(t.setups, t.proposals[i].proposedSetup);
      SameApplies(t, u, j);
    }
  }

  // ------------------------------------------------------------ the first setup

  /** Everybody voted and everybody said yes. */
  ghost predicate Unanimous(t: Tables, i: Id) {
    && i in t.proposals
    && var electorate := Electorate(t, t.proposals[i].voteSnapshot);
       TallyOf(t.ballots, i) == Tally(|electorate|, 0, 0)
  }

  lemma UnanimousFigures(n: nat, quorumBp: nat, majorityBp: nat)
    requires 0 < n < U64 && ShareRange(quorumBp) && MajorityRange(majorityBp)
    ensures Electoral.Passes(Tally(n, 0, 0), n, quorumBp, majorityBp)
  {
    ApprovalIff(Tally(n, 0, 0), n, quorumBp, majorityBp);
    ProductLe(quorumBp, 10_000, n);
    ProductLe(majorityBp, 9_999, n);
  }

  /** Whatever the rules, a unanimous vote passes: the ranges of the parameters leave no
      vote that cannot be won. */
  lemma UnanimousPasses(t: Tables, env: Env, i: Id)
    requires i in t.proposals && VoteDue(t.proposals[i], env.now) && Unanimous(t, i) && Valid(t)
    ensures CloseTx(t, env, i).Ok? && CloseTx(t, env, i).value.1 == Some(Approved)
  {
    hide *;
    CloseSucceeds(t, env, i);
    VoteIsOpen(t, env, i);
    var figures := CloseDelta(t, env, i);
    UnanimousCount(t, CloseTx(t, env, i).value.0, i, figures, env.now);
    ApprovedOnly(figures.outcome);
  }

  lemma UnanimousCount(t: Tables, u: Tables, i: Id, figures: ResultCalc, now: int)
    requires Closed(t, u, i, figures, now) && Unanimous(t, i) && Valid(t)
    ensures figures.outcome.OApproved?
  {
    hide Valid, ComputeResult, Rules, ValidParams, TallyOf, Adopts, Rejection, Unnumbered, ResultRow, RowCheck;
    OpenVote(t, i);
    var p := t.proposals[i];
    RulesVotable(t.setups, p.voteSetupVersion.value, p.kind);
    var rules := Rules(t.setups[p.voteSetupVersion.value].params, p.kind);
    SizeOf(t, p.voteSnapshot.value);
    UnanimousFigures(t.snapshots[p.voteSnapshot.value].memberCount, rules.quorumBp, rules.majorityBp);
  }

  lemma SizeOf(t: Tables, s: Id)
    requires s in t.snapshots && Valid(t)
    ensures t.snapshots[s].memberCount == |t.snapshots[s].members|
  {
    assert SnapshotOk(t, s);
    hide Valid;
  }

  /** Start a plebiscite, identify oneself, vote yes, and let the deadline pass. */
  function FirstRun(env: Env, actor: Actor, params: SetupParams): seq<Action> {
    var later := env.(now := env.now + params.initialVoteDays * DAY);
    [Action(env, Start(actor, params)),
     Action(env, Reauthenticate(actor.session, VoteSetup, 1)),
     Action(env, Cast(actor, 1, Yes, true, None)),
     Action(later, CloseDue(1))]
  }

  predicate Founder(env: Env, actor: Actor, params: SetupParams) {
    && ValidParams(params) && Eligible(env, actor.country) == {actor.user}
    && {MayStartSetup, MayVoteSetup} <= actor.may && {ProposalsFlag, VotingFlag} <= env.flags
  }

  lemma Started(catalog: Catalog, env: Env, actor: Actor, params: SetupParams)
    requires Founder(env, actor, params) && Forest(catalog)
    ensures var t := EmptyTables(catalog);
            StartTx(t, env, actor, params).Ok?
            && Begun(t, StartTx(t, env, actor, params).value.0, env, actor.user, actor.country, params)
  {
    var t := EmptyTables(catalog);
    assert forall n :: !HitAt(t, actor.country, n);
    EmptyIsValid(catalog);
    StartIff(t, env, actor, params);
    StartDelta(t, env, actor, params);
    hide Valid, StartTx, Begun, ValidParams;
  }

  lemma ReadyToVote(catalog: Catalog, t: Tables, env: Env, actor: Actor, params: SetupParams)
    requires Founder(env, actor, params) && Begun(EmptyTables(catalog), t, env, actor.user, actor.country, params)
    ensures var u := GrantTx(t, env.now, actor.session, VoteSetup, 1);
            && MayCast(u, env, actor, 1) && u.ballots == [] && 1 in u.proposals
            && u.proposals[1].proposedSetup == Some(0) && u.proposals[1].jurisdiction == actor.country
            && 0 in u.setups && u.setups[0].params == params && u.proposals[1].status.InVoting?
            && u.proposals[1].voteEndsAt == Some(env.now + params.initialVoteDays * DAY)
            && Electorate(u, u.proposals[1].voteSnapshot) == {actor.user}
  {
    var u := GrantTx(t, env.now, actor.session, VoteSetup, 1);
    assert 3 in u.grants && Usable(u.grants[3], env.now, actor.session, VoteSetup, 1);
    hide PlebisciteOpen, Covered;
  }

  lemma VotedUnanimously(t: Tables, u: Tables, i: Id, user: Id)
    requires OneMoreBallot(t, u, i, user, Yes) && t.ballots == [] && u.snapshots == t.snapshots
    requires i in t.proposals && Electorate(t, t.proposals[i].voteSnapshot) == {user}
    ensures Unanimous(u, i) && u.proposals == t.proposals && u.setups == t.setups
  {
  }

  lemma NoKey(t: Tables, user: Id)
    ensures FreshKey(t, user, None)
  {
  }

  lemma DueAtLast(t: Tables, env: Env)
    requires 1 in t.proposals && t.proposals[1].status.InVoting? && t.proposals[1].voteEndsAt == Some(env.now)
    ensures VoteDue(t.proposals[1], env.now)
  {
  }

  lemma CastKeepsSnapshots(t: Tables, env: Env, actor: Actor, i: Id, choice: Choice)
    requires CastTx(t, env, actor, i, choice, true, None).Ok?
    ensures CastTx(t, env, actor, i, choice, true, None).value.0.snapshots == t.snapshots
  {
    CastDelta(t, env, actor, i, choice, true, None);
    hide CastTx, Spent, InSnapshot;
  }

  lemma AppliesIs(u: Tables, j: Id, t: Tables, v: Id)
    requires Applies(u, j, t, v)
    ensures EffectiveSetup(u, j) == Some(v) && v in u.setups && v in t.setups
            && u.setups[v].params == t.setups[v].params
  {
  }

  lemma FirstRunIs(t: Tables, env: Env, actor: Actor, params: SetupParams)
    ensures var later := env.(now := env.now + params.initialVoteDays * DAY);
            Run(t, FirstRun(env, actor, params)) ==
            Apply(Apply(Apply(Apply(t, env, Start(actor, params)), env, Reauthenticate(actor.session, VoteSetup, 1)),
                        env, Cast(actor, 1, Yes, true, None)), later, CloseDue(1))
  {
    hide Apply;
    var run := FirstRun(env, actor, params);
    assert run[..1] == [] + [run[0]] && run[..2] == run[..1] + [run[1]] && run[..3] == run[..2] + [run[2]]
           && run == run[..3] + [run[3]];
    RunOneMore(t, [], run[0]);
    RunOneMore(t, run[..1], run[1]);
    RunOneMore(t, run[..2], run[2]);
    RunOneMore(t, run[..3], run[3]);
  }

  lemma AppliedIs(t: Tables, env: Env, actor: Actor, params: SetupParams)
    ensures StartTx(t, env, actor, params).Ok? ==>
              Apply(t, env, Start(actor, params)) == StartTx(t, env, actor, params).value.0
    ensures Apply(t, env, Reauthenticate(actor.session, VoteSetup, 1)) ==
              GrantTx(t, env.now, actor.session, VoteSetup, 1)
    ensures CastTx(t, env, actor, 1, Yes, true, None).Ok? ==>
              Apply(t, env, Cast(actor, 1, Yes, true, None)) == CastTx(t, env, actor, 1, Yes, true, None).value.0
    ensures CloseTx(t, env, 1).Ok? ==> Apply(t, env, CloseDue(1)) == CloseTx(t, env, 1).value.0
  {
    hide StartTx, GrantTx, CastTx, CloseTx;
  }

  /** From an empty database, with any valid parameters, one eligible citizen can give the
      country its first setup: the four requests end with that setup in force. */
  lemma FirstSetup(catalog: Catalog, env: Env, actor: Actor, params: SetupParams)
    requires Founder(env, actor, params) && Forest(catalog) && Sane(env)
    ensures var t := Run(EmptyTables(catalog), FirstRun(env, actor, params));
            EffectiveSetup(t, actor.country) == Some(0) && 0 in t.setups && t.setups[0].params == params
  {
    hide *;
    var t0 := EmptyTables(catalog);
    var later := env.(now := env.now + params.initialVoteDays * DAY);
    EmptyIsValid(catalog);
    Started(catalog, env, actor, params);
    AppliedIs(t0, env, actor, params);
    ApplyKeeps(t0, env, Start(actor, params));
    var t1 := StartTx(t0, env, actor, params).value.0;
    ReadyToVote(catalog, t1, env, actor, params);
    AppliedIs(t1, env, actor, params);
    ApplyKeeps(t1, env, Reauthenticate(actor.session, VoteSetup, 1));
    var t2 := GrantTx(t1, env.now, actor.session, VoteSetup, 1);
    NoKey(t2, actor.user);
    CastCounts(t2, env, actor, 1, Yes, None);
    AppliedIs(t2, env, actor, params);
    ApplyKeeps(t2, env, Cast(actor, 1, Yes, true, None));
    var t3 := CastTx(t2, env, actor, 1, Yes, true, None).value.0;
    CastKeepsSnapshots(t2, env, actor, 1, Yes);
    VotedUnanimously(t2, t3, 1, actor.user);
    DueAtLast(t3, later);
    UnanimousPasses(t3, later, 1);
    AppliedIs(t3, later, actor, params);
    ApprovedApplies(t3, later, 1);
    AppliesIs(CloseTx(t3, later, 1).value.0, actor.country, t3, 0);
    FirstRunIs(t0, env, actor, params);
  }
}
