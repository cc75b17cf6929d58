/** The terms of each kind of proposal, written out parameter by parameter
    (src/domain/setup.rs): how long its phases last, and when its vote approves. */
module Terms {
  import opened Prelude
  import opened Electoral
  import opened Territory
  import opened Tables
  import opened Transactions
  import opened Integrity
  import opened Closing
  import opened Deadlines
  import opened Steps
  import opened Runs
  import opened Acts
  import opened Verdicts

  // ------------------------------------------------------------ verdicts

  /** Too few of the electorate voted, or yes has more than its share of yes and no, or not. */
  predicate EndsAs(status: Status, voters: nat, electorate: nat, yes: nat, no: nat, quorumBp: nat, majorityBp: nat) {
    status == if 10_000 * voters < quorumBp * electorate then QuorumNotReached
              else if 10_000 * yes > majorityBp * (yes + no) then Approved
              else Rejected
  }

  /** The verdict on the ballots cast, with the quorum and majority of the proposal's kind
      in the setup its vote was opened under. */
  ghost predicate Verdict(t: Tables, i: Id, status: Status) {
    && i in t.proposals
    && var p := t.proposals[i];
       && p.voteSetupVersion.Some? && p.voteSetupVersion.value in t.setups
       && var params := t.setups[p.voteSetupVersion.value].params;
          var voters, electorate := |Voters(t.ballots, i)|, |Electorate(t, p.voteSnapshot)|;
          var yes, no := NChoice(t.ballots, i, Yes), NChoice(t.ballots, i, No);
          match p.kind
          case NormalLaw =>
            EndsAs(status, voters, electorate, yes, no, params.normalQuorumBp, params.normalMajorityBp)
          case UrgentLaw =>
            EndsAs(status, voters, electorate, yes, no, params.urgentQuorumBp, params.urgentMajorityBp)
          case SetupChange =>
            EndsAs(status, voters, electorate, yes, no, params.setupQuorumBp, params.setupMajorityBp)
          case InitialSetup =>
            EndsAs(status, voters, electorate, yes, no, params.initialQuorumBp, params.initialMajorityBp)
  }

  /** What the stored row of a closed vote says, column by column. */
  ghost predicate ResultRowOf(t: Tables, i: Id, r: VoteResult, closedAt: int) {
    && i in t.proposals
    && var p := t.proposals[i];
       && p.voteSetupVersion.Some? && p.voteSetupVersion.value in t.setups && p.voteSnapshot.Some?
       && var params := t.setups[p.voteSetupVersion.value].params;
          && r.snapshot == p.voteSnapshot.value && r.setupVersion == p.voteSetupVersion.value
          && r.electorate == |Electorate(t, p.voteSnapshot)| && r.closedAt == closedAt
          && r.tally.yes == NChoice(t.ballots, i, Yes) && r.tally.no == NChoice(t.ballots, i, No)
          && r.tally.abstain == NChoice(t.ballots, i, Abstain)
          && match p.kind
             case NormalLaw => r.quorumBp == params.normalQuorumBp && r.majorityBp == params.normalMajorityBp
             case UrgentLaw => r.quorumBp == params.urgentQuorumBp && r.majorityBp == params.urgentMajorityBp
             case SetupChange => r.quorumBp == params.setupQuorumBp && r.majorityBp == params.setupMajorityBp
             case InitialSetup => r.quorumBp == params.initialQuorumBp && r.majorityBp == params.initialMajorityBp
  }

  lemma RowEnds(r: VoteResult, electorate: nat, rules: KindRules)
    requires ComputeResult(r.tally, r.electorate, r.quorumBp, r.majorityBp) == Calc(r.figures)
    requires r.electorate == electorate && r.quorumBp == rules.quorumBp && r.majorityBp == rules.majorityBp
    requires Votable(r.tally, electorate, rules.quorumBp, rules.majorityBp)
    ensures EndsAs(r.figures.outcome.Status(), r.tally.Participation(), electorate, r.tally.yes, r.tally.no,
                   rules.quorumBp, rules.majorityBp)
  {
    OutcomeIs(r.tally, r.electorate, r.quorumBp, r.majorityBp);
    hide ComputeResult;
  }

  lemma ResultEnds(t: Tables, i: Id)
    requires i in t.proposals && ResultOk(t, i, t.proposals[i])
    requires var p := t.proposals[i];
             && SetupRef(t, p.voteSetupVersion.value) && SnapshotOk(t, p.voteSnapshot.value)
             && TallyOf(t.ballots, i).Participation() <= t.snapshots[p.voteSnapshot.value].memberCount
    requires |Voters(t.ballots, i)| == TallyOf(t.ballots, i).Participation()
    ensures Verdict(t, i, t.results[i].figures.outcome.Status())
    ensures ResultRowOf(t, i, t.results[i], t.results[i].closedAt)
  {
    hide ValidParams, Voters, NChoice, ComputeResult, EndsAs;
    var p := t.proposals[i];
    var rules := Rules(t.setups[p.voteSetupVersion.value].params, p.kind);
    RulesVotable(t.setups, p.voteSetupVersion.value, p.kind);
    RowEnds(t.results[i], t.snapshots[p.voteSnapshot.value].memberCount, rules);
  }

  /** A stored result is the verdict of the ballots under the parameters of the kind, and a
      proposal decided by it and not archived yet has that status. */
  lemma StoredVerdict(t: Tables, i: Id)
    requires i in t.proposals && i in t.results && Valid(t)
    ensures Verdict(t, i, t.results[i].figures.outcome.Status())
    ensures ResultRowOf(t, i, t.results[i], t.results[i].closedAt)
    ensures t.proposals[i].status == t.results[i].figures.outcome.Status() || t.proposals[i].status.Archived?
  {
    hide *;
    VotedParts(t, i);
    TallyFits(t, i);
    VotersAreBallots(t, i);
    ResultEnds(t, i);
    ResultStatus(t, i);
  }

  lemma ResultStatus(t: Tables, i: Id)
    requires i in t.proposals && i in t.results && Valid(t)
    ensures t.proposals[i].status == t.results[i].figures.outcome.Status() || t.proposals[i].status.Archived?
  {
    hide Valid, ComputeResult, TallyOf, Rules, BallotsInside, CollectionOk;
    RowIsOk(t, i);
  }

  /** A vote past its end closes with the verdict of its ballots under the parameters of
      its kind, and stores that row. */
  lemma DueVerdict(t: Tables, env: Env, i: Id)
    requires i in t.proposals && t.proposals[i].status.InVoting? && Past(t.proposals[i].voteEndsAt, env.now) && Valid(t)
    ensures CloseTx(t, env, i).Ok? && CloseTx(t, env, i).value.1.Some?
    ensures var (u, to) := CloseTx(t, env, i).value;
            && Verdict(t, i, to.value) && i in u.results && ResultRowOf(t, i, u.results[i], env.now)
            && i in u.proposals && u.proposals[i] == t.proposals[i].(status := to.value, closedAt := Some(env.now))
  {
    hide *;
    PastIsDue(t.proposals[i], env.now);
    CloseSucceeds(t, env, i);
    CloseKeeps(t, env, i);
    VoteIsOpen(t, env, i);
    var (u, to) := CloseTx(t, env, i).value;
    var figures := CloseDelta(t, env, i);
    ClosedRows(t, u, i, figures, env.now);
    StoredVerdict(u, i);
    SameVerdict(t, u, i, figures, env.now);
  }

  lemma PastIsDue(p: Proposal, now: int)
    ensures VoteDue(p, now) <==> p.status.InVoting? && Past(p.voteEndsAt, now)
  {
  }

  lemma ClosedRows(t: Tables, u: Tables, i: Id, figures: ResultCalc, now: int)
    requires Closed(t, u, i, figures, now)
    ensures i in t.proposals && i in u.proposals && i in u.results
    ensures u.results[i].figures == figures && u.results[i].closedAt == now
    ensures u.proposals[i] == t.proposals[i].(status := figures.outcome.Status(), closedAt := Some(now))
    ensures u.ballots == t.ballots && u.snapshots == t.snapshots
  {
    hide Adopts, Rejection, VoteRules, ComputeResult, TallyOf;
  }

  lemma SameVerdict(t: Tables, u: Tables, i: Id, figures: ResultCalc, now: int)
    requires Closed(t, u, i, figures, now) && i in u.proposals && i in u.results && Valid(t)
    requires Verdict(u, i, figures.outcome.Status()) && ResultRowOf(u, i, u.results[i], now)
    ensures Verdict(t, i, figures.outcome.Status()) && ResultRowOf(t, i, u.results[i], now)
  {
    hide *;
    VoteHasTerms(t, i, u, figures, now);
    ClosedTerms(t, u, i, figures, now);
    ClosedRows(t, u, i, figures, now);
    SameTermsSameVerdict(t, u, i, figures.outcome.Status(), u.results[i], now);
  }

  lemma VoteHasTerms(t: Tables, i: Id, u: Tables, figures: ResultCalc, now: int)
    requires Closed(t, u, i, figures, now) && Valid(t)
    ensures i in t.proposals && t.proposals[i].voteSetupVersion.Some?
            && t.proposals[i].voteSetupVersion.value in t.setups
    ensures t.proposals[i].voteSnapshot.Some?
  {
    hide Valid, ComputeResult, TallyOf, Adopts, Rejection, Rules;
  }

  lemma SameTermsSameVerdict(t: Tables, u: Tables, i: Id, status: Status, r: VoteResult, now: int)
    requires i in t.proposals && t.proposals[i].voteSetupVersion.Some?
             && t.proposals[i].voteSetupVersion.value in t.setups
    requires i in u.proposals && u.proposals[i] == t.proposals[i].(status := status, closedAt := Some(now))
    requires u.ballots == t.ballots && u.snapshots == t.snapshots
    requires forall v :: v in t.setups ==> v in u.setups && u.setups[v].params == t.setups[v].params
    requires Verdict(u, i, status) && ResultRowOf(u, i, r, now)
    ensures Verdict(t, i, status) && ResultRowOf(t, i, r, now)
  {
    hide EndsAs, Voters, NChoice, Electorate;
    assert Electorate(u, t.proposals[i].voteSnapshot) == Electorate(t, t.proposals[i].voteSnapshot) by {
      SameElectorate(t, u, t.proposals[i].voteSnapshot);
    }
  }

  lemma SameElectorate(t: Tables, u: Tables, s: Option<Id>)
    requires u.snapshots == t.snapshots
    ensures Electorate(u, s) == Electorate(t, s)
  {
  }

  lemma ClosedTerms(t: Tables, u: Tables, i: Id, figures: ResultCalc, now: int)
    requires Closed(t, u, i, figures, now)
    ensures forall v :: v in t.setups ==> v in u.setups && u.setups[v].params == t.setups[v].params
  {
    hide Counted, ResultRow, MaxVersion;
  }

  // ------------------------------------------------------------ deadlines

  /** The instant `days` days after `now`. */
  predicate EndsAfter(deadline: Option<int>, now: int, days: nat) { deadline == Some(now + days * 86_400_000) }

  predicate CollectsFor(params: SetupParams, q: Proposal, now: int) {
    match q.kind
    case NormalLaw => EndsAfter(q.collectEndsAt, now, params.normalCollectDays)
    case UrgentLaw => EndsAfter(q.collectEndsAt, now, params.urgentCollectDays)
    case SetupChange => EndsAfter(q.collectEndsAt, now, params.setupCollectDays)
    case InitialSetup => false
  }

  predicate DebatesFor(params: SetupParams, q: Proposal, now: int) {
    match q.kind
    case NormalLaw => EndsAfter(q.debateEndsAt, now, params.normalDebateDays)
    case SetupChange => EndsAfter(q.debateEndsAt, now, params.setupDebateDays)
    case _ => false
  }

  predicate VotesFor(params: SetupParams, q: Proposal, now: int) {
    match q.kind
    case NormalLaw => EndsAfter(q.voteEndsAt, now, params.normalVoteDays)
    case UrgentLaw => EndsAfter(q.voteEndsAt, now, params.urgentVoteDays)
    case SetupChange => EndsAfter(q.voteEndsAt, now, params.setupVoteDays)
    case InitialSetup => EndsAfter(q.voteEndsAt, now, params.initialVoteDays)
  }

  function ParamsAt(setups: map<Id, Setup>, v: Option<Id>): Option<SetupParams> {
    if v.Some? && v.value in setups then Some(setups[v.value].params) else None
  }

  /** The phase a row has just entered lasts as long as the parameters of its kind say: the
      setup it was published under for collection and debate, the one its vote opened under
      for voting. */
  predicate EnteredFor(setups: map<Id, Setup>, q: Proposal, now: int) {
    match q.status
    case Collecting =>
      ParamsAt(setups, q.setupVersion).Some? && CollectsFor(ParamsAt(setups, q.setupVersion).value, q, now)
    case InDebate =>
      ParamsAt(setups, q.setupVersion).Some? && DebatesFor(ParamsAt(setups, q.setupVersion).value, q, now)
    case InVoting =>
      ParamsAt(setups, q.voteSetupVersion).Some? && VotesFor(ParamsAt(setups, q.voteSetupVersion).value, q, now)
    case _ => true
  }

  lemma BornEnters(setups: map<Id, Setup>, q: Proposal, now: int)
    requires NewRow(setups, q, now)
    ensures EnteredFor(setups, q, now)
  {
  }

  /** Whatever the request, a phase entered by it lasts as the parameters of the kind say. */
  lemma DeadlinesByKind(t: Tables, env: Env, request: Request, i: Id)
    requires i in Apply(t, env, request).proposals && Sane(env) && Valid(t)
    requires i in t.proposals ==> t.proposals[i].status != Apply(t, env, request).proposals[i].status
    ensures EnteredFor(Apply(t, env, request).setups, Apply(t, env, request).proposals[i], env.now)
  {
    hide Valid, Apply, Sane, RowStep, NewRow, EnteredFor, GovernStep, TablesStep;
    ApplyMoves(t, env, request);
    var u := Apply(t, env, request);
    var k :| Stepped(t, u, k, env.now);
    if i !in t.proposals {
      BornEnters(u.setups, u.proposals[i], env.now);
    } else {
      EnteredOrNot(u.setups, t.proposals[i], u.proposals[i], env.now);
    }
  }

  lemma EnteredOrNot(setups: map<Id, Setup>, p: Proposal, q: Proposal, now: int)
    requires RowStep(setups, p, q, now) && q.status != p.status
    ensures EnteredFor(setups, q, now)
  {
  }
}
