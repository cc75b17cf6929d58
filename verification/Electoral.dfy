/** Proposal lifecycle, setup parameters and the exact electoral arithmetic
    (src/domain/proposals.rs, src/domain/setup.rs). */
module Electoral {
  import opened Prelude

  datatype Kind = NormalLaw | UrgentLaw | SetupChange | InitialSetup
  datatype Status =
    | Draft | Collecting | InDebate | InVoting
    | Approved | Rejected | QuorumNotReached | Expired | Archived
  datatype Level = National | State | Municipal
  datatype Choice = Yes | No | Abstain

  // ------------------------------------------------------------ lifecycle

  predicate CitizenCreatable(kind: Kind) { !kind.InitialSetup? }

  function AfterCollection(kind: Kind): Option<Status> {
    match kind
    case NormalLaw | SetupChange => Some(InDebate)
    case UrgentLaw => Some(InVoting)
    case InitialSetup => None
  }

  predicate IsTerminal(s: Status) {
    s.Approved? || s.Rejected? || s.QuorumNotReached? || s.Expired?
  }

  predicate IsDecided(s: Status) { s.Approved? || s.Rejected? || s.QuorumNotReached? }

  predicate IsOpen(s: Status) { s.Draft? || s.Collecting? || s.InDebate? || s.InVoting? }

  predicate CanTransition(kind: Kind, from: Status, to: Status) {
    match (from, to)
    case (Draft, Collecting) => CitizenCreatable(kind)
    case (Draft, Archived) => CitizenCreatable(kind)
    case (Collecting, Archived) => CitizenCreatable(kind)
    case (Collecting, Expired) => true
    case (Collecting, next) => AfterCollection(kind) == Some(next)
    case (InDebate, InVoting) => kind.NormalLaw? || kind.SetupChange?
    case (InVoting, _) => IsDecided(to)
    case (_, Archived) => IsTerminal(from)
    case _ => false
  }

  function Rank(s: Status): nat {
    match s
    case Draft => 0
    case Collecting => 1
    case InDebate => 2
    case InVoting => 3
    case Archived => 5
    case _ => 4
  }

  /** The edges a stored proposal takes: those of `CanTransition` plus the archiving
      of a debated proposal whose electorate vanished. */
  predicate Edge(kind: Kind, from: Status, to: Status) {
    CanTransition(kind, from, to) || (from.InDebate? && to.Archived?)
  }

  lemma EdgeRises(kind: Kind, from: Status, to: Status)
    requires Edge(kind, from, to)
    ensures Rank(from) < Rank(to)
  {
  }

  // ------------------------------------------------------------ setup parameters

  const BP_FULL: nat := 10_000
  const DAY: int := 86_400_000

  datatype SetupParams = SetupParams(
    signatureBpNational: nat, signatureBpState: nat, signatureBpMunicipal: nat,
    normalQuorumBp: nat, normalMajorityBp: nat,
    normalCollectDays: nat, normalDebateDays: nat, normalVoteDays: nat,
    urgentQuorumBp: nat, urgentMajorityBp: nat, urgentCollectDays: nat, urgentVoteDays: nat,
    setupQuorumBp: nat, setupMajorityBp: nat,
    setupCollectDays: nat, setupDebateDays: nat, setupVoteDays: nat,
    initialQuorumBp: nat, initialMajorityBp: nat, initialVoteDays: nat,
    quotaNormalPerYear: nat, quotaUrgentPerYear: nat)

  datatype KindRules = KindRules(
    quorumBp: nat, majorityBp: nat,
    collectDays: Option<nat>, debateDays: Option<nat>, voteDays: nat,
    quotaPerYear: Option<nat>)

  function SignatureBp(p: SetupParams, level: Level): nat {
    match level
    case National => p.signatureBpNational
    case State => p.signatureBpState
    case Municipal => p.signatureBpMunicipal
  }

  function Rules(p: SetupParams, kind: Kind): KindRules {
    match kind
    case NormalLaw =>
      KindRules(p.normalQuorumBp, p.normalMajorityBp, Some(p.normalCollectDays),
                Some(p.normalDebateDays), p.normalVoteDays, Some(p.quotaNormalPerYear))
    case UrgentLaw =>
      KindRules(p.urgentQuorumBp, p.urgentMajorityBp, Some(p.urgentCollectDays),
                None, p.urgentVoteDays, Some(p.quotaUrgentPerYear))
    case SetupChange =>
      KindRules(p.setupQuorumBp, p.setupMajorityBp, Some(p.setupCollectDays),
                Some(p.setupDebateDays), p.setupVoteDays, None)
    case InitialSetup =>
      KindRules(p.initialQuorumBp, p.initialMajorityBp, None, None, p.initialVoteDays, None)
  }

  predicate MajorityRange(v: nat) { 5000 <= v <= 9999 }
  predicate ShareRange(v: nat) { 1 <= v <= BP_FULL }
  predicate CollectRange(v: nat) { 1 <= v <= 365 }
  predicate DebateRange(v: nat) { 1 <= v <= 180 }
  predicate VoteRange(v: nat) { 1 <= v <= 90 }
  predicate QuotaRange(v: nat) { 1 <= v <= 100 }

  /** Range check of every field; the source also names the first field that fails. */
  predicate ValidParams(p: SetupParams) {
    && ShareRange(p.signatureBpNational) && ShareRange(p.signatureBpState) && ShareRange(p.signatureBpMunicipal)
    && ShareRange(p.normalQuorumBp) && MajorityRange(p.normalMajorityBp)
    && CollectRange(p.normalCollectDays) && DebateRange(p.normalDebateDays) && VoteRange(p.normalVoteDays)
    && ShareRange(p.urgentQuorumBp) && MajorityRange(p.urgentMajorityBp)
    && CollectRange(p.urgentCollectDays) && VoteRange(p.urgentVoteDays)
    && ShareRange(p.setupQuorumBp) && MajorityRange(p.setupMajorityBp)
    && CollectRange(p.setupCollectDays) && DebateRange(p.setupDebateDays) && VoteRange(p.setupVoteDays)
    && ShareRange(p.initialQuorumBp) && MajorityRange(p.initialMajorityBp) && VoteRange(p.initialVoteDays)
    && QuotaRange(p.quotaNormalPerYear) && QuotaRange(p.quotaUrgentPerYear)
  }

  // ------------------------------------------------------------ arithmetic

  const U64: nat := 0x1_0000_0000_0000_0000

  /** ceil(bp * n / 10000), computed in 128 bits and truncated to 64. */
  function MinCount(bp: nat, electorate: nat): nat {
    (bp * electorate + BP_FULL - 1) / BP_FULL % U64
  }

  /** floor(bp * valid / 10000) truncated to 64 bits, plus one. */
  function MajorityRequired(bp: nat, valid: nat): nat {
    bp * valid / BP_FULL % U64 + 1
  }

  datatype Tally = Tally(yes: nat, no: nat, abstain: nat) {
    function Participation(): nat { yes + no + abstain }
    function Valid(): nat { yes + no }
  }

  datatype RejectReason = NoValidVotes | Tie | MajorityNotReached
  datatype Outcome = OApproved | ORejected(reason: RejectReason) | OQuorumNotReached {
    function Status(): Status {
      match this
      case OApproved => Approved
      case ORejected(_) => Rejected
      case OQuorumNotReached => QuorumNotReached
    }
  }

  datatype ResultCalc = ResultCalc(quorumRequired: nat, majorityRequired: nat, outcome: Outcome)
  datatype ElectoralResult = Calc(figures: ResultCalc) | NoElectorate | TallyExceedsElectorate

  function ComputeResult(tally: Tally, electorate: nat, quorumBp: nat, majorityBp: nat): ElectoralResult {
    if electorate == 0 then NoElectorate
    else if tally.Participation() > electorate then TallyExceedsElectorate
    else
      var quorum := MinCount(quorumBp, electorate);
      var majority := MajorityRequired(majorityBp, tally.Valid());
      var outcome :=
        if tally.Participation() < quorum then OQuorumNotReached
        else if tally.Valid() == 0 then ORejected(NoValidVotes)
        else if tally.yes == tally.no then ORejected(Tie)
        else if tally.yes >= majority then OApproved
        else ORejected(MajorityNotReached);
      Calc(ResultCalc(quorum, majority, outcome))
  }

  lemma ProductLe(a: nat, b: nat, c: nat)
    requires a <= b
    ensures a * c <= b * c
  {
    assert b * c == a * c + (b - a) * c;
    assert (b - a) * c >= 0;
  }

  lemma Ceiling(product: nat, n: nat)
    requires product <= 10_000 * n
    ensures (product + 9_999) / 10_000 <= n
    ensures forall m: nat :: m >= (product + 9_999) / 10_000 <==> m * 10_000 >= product
  {
  }

  lemma Floor(product: nat)
    ensures forall m: nat :: m >= product / 10_000 + 1 <==> m * 10_000 > product
    ensures forall n: nat :: product < 10_000 * n ==> product / 10_000 + 1 <= n
  {
  }

  /** For a share in range the count is the exact ceiling and needs no truncation. */
  lemma MinCountExact(bp: nat, n: nat)
    requires bp <= BP_FULL && n < U64
    ensures MinCount(bp, n) <= n < U64
    ensures forall m: nat :: m >= MinCount(bp, n) <==> m * 10_000 >= bp * n
  {
    ProductLe(bp, 10_000, n);
    Ceiling(bp * n, n);
  }

  /** For a majority below 100% the requirement is the least count strictly above
      the share, and it is attainable by the valid votes themselves. */
  lemma MajorityExact(bp: nat, valid: nat)
    requires bp < BP_FULL && valid < U64
    ensures forall m: nat :: m >= MajorityRequired(bp, valid) <==> m * 10_000 > bp * valid
    ensures valid > 0 ==> MajorityRequired(bp, valid) <= valid
    ensures valid == 0 ==> MajorityRequired(bp, valid) == 1
  {
    ProductLe(bp, 9_999, valid);
    Floor(bp * valid);
  }

  predicate Votable(tally: Tally, electorate: nat, quorumBp: nat, majorityBp: nat) {
    && 0 < electorate < U64 && tally.Participation() <= electorate
    && ShareRange(quorumBp) && MajorityRange(majorityBp)
  }

  predicate Passes(tally: Tally, electorate: nat, quorumBp: nat, majorityBp: nat) {
    ComputeResult(tally, electorate, quorumBp, majorityBp).Calc? &&
    ComputeResult(tally, electorate, quorumBp, majorityBp).figures.outcome.OApproved?
  }

  /** Approval is exactly quorum over the electorate and a strict share of the valid
      votes: the branches for no valid votes and for a tie never change it. */
  lemma ApprovalIff(tally: Tally, electorate: nat, quorumBp: nat, majorityBp: nat)
    requires Votable(tally, electorate, quorumBp, majorityBp)
    ensures Passes(tally, electorate, quorumBp, majorityBp) <==>
            && 10_000 * tally.Participation() >= quorumBp * electorate
            && 10_000 * tally.yes > majorityBp * tally.Valid()
  {
    var quorum, majority := MinCount(quorumBp, electorate), MajorityRequired(majorityBp, tally.Valid());
    MinCountExact(quorumBp, electorate);
    assert tally.Participation() >= quorum <==> tally.Participation() * 10_000 >= quorumBp * electorate;
    MajorityExact(majorityBp, tally.Valid());
    assert tally.yes >= majority <==> tally.yes * 10_000 > majorityBp * tally.Valid();
    ProductLe(5_000, majorityBp, tally.Valid());
  }

  /** Falling short of quorum is decided by participation alone, and a vote that more
      people refused than supported never passes. */
  lemma RejectionIff(tally: Tally, electorate: nat, quorumBp: nat, majorityBp: nat)
    requires Votable(tally, electorate, quorumBp, majorityBp)
    ensures var outcome := ComputeResult(tally, electorate, quorumBp, majorityBp).figures.outcome;
            && (outcome.OQuorumNotReached? <==> 10_000 * tally.Participation() < quorumBp * electorate)
            && (tally.yes <= tally.no ==> !outcome.OApproved?)
            && (majorityBp == 5_000 && !outcome.OQuorumNotReached? ==> (outcome.OApproved? <==> tally.yes > tally.no))
  {
    var quorum := MinCount(quorumBp, electorate);
    MinCountExact(quorumBp, electorate);
    assert tally.Participation() >= quorum <==> tally.Participation() * 10_000 >= quorumBp * electorate;
    ApprovalIff(tally, electorate, quorumBp, majorityBp);
    ProductLe(5_000, majorityBp, tally.Valid());
  }

  /** One more yes vote within the electorate never undoes an approval. */
  lemma YesIsMonotone(tally: Tally, electorate: nat, quorumBp: nat, majorityBp: nat)
    requires Votable(tally, electorate, quorumBp, majorityBp)
    requires tally.Participation() < electorate
    requires Passes(tally, electorate, quorumBp, majorityBp)
    ensures Passes(tally.(yes := tally.yes + 1), electorate, quorumBp, majorityBp)
  {
    var more := tally.(yes := tally.yes + 1);
    ApprovalIff(tally, electorate, quorumBp, majorityBp);
    ApprovalIff(more, electorate, quorumBp, majorityBp);
    assert more.Valid() == tally.Valid() + 1;
    assert majorityBp * (tally.Valid() + 1) == majorityBp * tally.Valid() + majorityBp;
  }

  /** Every stored figure of a result fits 64 bits, so no truncation ever shows. */
  lemma ResultFits(tally: Tally, electorate: nat, quorumBp: nat, majorityBp: nat)
    requires Votable(tally, electorate, quorumBp, majorityBp)
    ensures var r := ComputeResult(tally, electorate, quorumBp, majorityBp).figures;
            r.quorumRequired <= electorate && 1 <= r.majorityRequired <= electorate
  {
    MinCountExact(quorumBp, electorate);
    MajorityExact(majorityBp, tally.Valid());
  }

  /** The stored requirements are the least counts that meet the quorum and the majority. */
  lemma FiguresAreLeast(tally: Tally, electorate: nat, quorumBp: nat, majorityBp: nat)
    requires Votable(tally, electorate, quorumBp, majorityBp)
    ensures var r := ComputeResult(tally, electorate, quorumBp, majorityBp).figures;
            && (forall n: nat :: n >= r.quorumRequired <==> n * 10_000 >= quorumBp * electorate)
            && (forall n: nat :: n >= r.majorityRequired <==> n * 10_000 > majorityBp * (tally.yes + tally.no))
  {
    MinCountExact(quorumBp, electorate);
    MajorityExact(majorityBp, tally.Valid());
    hide MinCount, MajorityRequired;
  }

  /** The outcome and its reason, in the exact arithmetic: a quorum is not reached, or
      nobody said yes or no, or as many said each, or yes has more than its share, or not. */
  lemma OutcomeIs(tally: Tally, electorate: nat, quorumBp: nat, majorityBp: nat)
    requires Votable(tally, electorate, quorumBp, majorityBp)
    ensures ComputeResult(tally, electorate, quorumBp, majorityBp).figures.outcome ==
            if 10_000 * (tally.yes + tally.no + tally.abstain) < quorumBp * electorate then OQuorumNotReached
            else if 10_000 * tally.yes > majorityBp * (tally.yes + tally.no) then OApproved
            else ORejected(if tally.yes == tally.no then if tally.yes == 0 then NoValidVotes else Tie
                           else MajorityNotReached)
  {
    ApprovalIff(tally, electorate, quorumBp, majorityBp);
    RejectionIff(tally, electorate, quorumBp, majorityBp);
    hide MinCount, MajorityRequired;
  }

  /** No figures exactly for an empty electorate or more ballots than members. */
  lemma NoFiguresIff(tally: Tally, electorate: nat, quorumBp: nat, majorityBp: nat)
    ensures var r := ComputeResult(tally, electorate, quorumBp, majorityBp);
            && (r.NoElectorate? <==> electorate == 0)
            && (r.TallyExceedsElectorate? <==> 0 < electorate < tally.yes + tally.no + tally.abstain)
  {
    hide MinCount, MajorityRequired;
  }

  /** The ranges of a package, in numbers. */
  lemma ParamsInRange(p: SetupParams)
    ensures ValidParams(p) <==>
            && 1 <= p.signatureBpNational <= 10_000 && 1 <= p.signatureBpState <= 10_000
            && 1 <= p.signatureBpMunicipal <= 10_000
            && 1 <= p.normalQuorumBp <= 10_000 && 1 <= p.urgentQuorumBp <= 10_000
            && 1 <= p.setupQuorumBp <= 10_000 && 1 <= p.initialQuorumBp <= 10_000
            && 5_000 <= p.normalMajorityBp <= 9_999 && 5_000 <= p.urgentMajorityBp <= 9_999
            && 5_000 <= p.setupMajorityBp <= 9_999 && 5_000 <= p.initialMajorityBp <= 9_999
            && 1 <= p.normalCollectDays <= 365 && 1 <= p.urgentCollectDays <= 365 && 1 <= p.setupCollectDays <= 365
            && 1 <= p.normalDebateDays <= 180 && 1 <= p.setupDebateDays <= 180
            && 1 <= p.normalVoteDays <= 90 && 1 <= p.urgentVoteDays <= 90
            && 1 <= p.setupVoteDays <= 90 && 1 <= p.initialVoteDays <= 90
            && 1 <= p.quotaNormalPerYear <= 100 && 1 <= p.quotaUrgentPerYear <= 100
  {
  }

  // ------------------------------------------------------------ stored outcomes

  function OutcomeToDb(o: Outcome): (string, Option<string>) {
    match o
    case OApproved => ("approved", None)
    case OQuorumNotReached => ("quorum_not_reached", None)
    case ORejected(NoValidVotes) => ("rejected", Some("no_valid_votes"))
    case ORejected(Tie) => ("rejected", Some("tie"))
    case ORejected(MajorityNotReached) => ("rejected", Some("majority_not_reached"))
  }

  function OutcomeFromDb(outcome: string, reason: Option<string>): Option<Outcome> {
    if outcome == "approved" && reason == None then Some(OApproved)
    else if outcome == "quorum_not_reached" && reason == None then Some(OQuorumNotReached)
    else if outcome == "rejected" && reason == Some("no_valid_votes") then Some(ORejected(NoValidVotes))
    else if outcome == "rejected" && reason == Some("tie") then Some(ORejected(Tie))
    else if outcome == "rejected" && reason == Some("majority_not_reached") then Some(ORejected(MajorityNotReached))
    else None
  }

  /** The columns of each outcome. */
  lemma OutcomeColumns()
    ensures OutcomeToDb(OApproved) == ("approved", None)
            && OutcomeToDb(OQuorumNotReached) == ("quorum_not_reached", None)
    ensures OutcomeToDb(ORejected(NoValidVotes)) == ("rejected", Some("no_valid_votes"))
    ensures OutcomeToDb(ORejected(Tie)) == ("rejected", Some("tie"))
    ensures OutcomeToDb(ORejected(MajorityNotReached)) == ("rejected", Some("majority_not_reached"))
  {
  }

  /** Reading gives an outcome back exactly from the two columns it was stored as. */
  lemma OutcomeRoundTrip(o: Outcome, outcome: string, reason: Option<string>)
    ensures OutcomeFromDb(outcome, reason) == Some(o) <==> (outcome, reason) == OutcomeToDb(o)
  {
    assert "approved" != "rejected" && "approved" != "quorum_not_reached" && "rejected" != "quorum_not_reached" by {
      assert |"approved"| == 8 && |"rejected"| == 8 && "approved"[0] != "rejected"[0];
    }
    assert |"no_valid_votes"| == 14 && |"tie"| == 3 && |"majority_not_reached"| == 20;
    match o
    case ORejected(r) => match r { case NoValidVotes => case Tie => case MajorityNotReached => }
    case _ =>
  }
}
