/** The invariant of the legislative engine: the `integrity` query of
    src/application/voting.rs together with what it needs to be inductive. */
module Integrity {
  import opened Prelude
  import opened Electoral
  import opened Territory
  import opened Tables
  import opened Transactions

  /** No electorate outgrows the 64-bit counts of the source. */
  ghost predicate Sane(env: Env) { forall j :: |Eligible(env, j)| < U64 }

  // ------------------------------------------------------------ one proposal

  predicate Reached(p: Proposal) { p.target.Some? && p.count == p.target.value }
  predicate Short(p: Proposal) { p.target.Some? && p.count < p.target.value }

  /** Which columns a status implies. */
  ghost predicate Shape(p: Proposal) {
    && RowCheck(p)
    && (IsSetupVote(p.kind) <==> p.proposedSetup.Some?)
    && (p.collectionSnapshot.Some? <==> p.setupVersion.Some?)
    && (p.collectionSnapshot.Some? <==> p.target.Some?)
    && (p.collectionSnapshot.Some? <==> p.collectEndsAt.Some?)
    && (p.collectionSnapshot.None? ==> p.count == 0)
    && (p.collectionSnapshot.None? <==> (p.kind.InitialSetup? || p.status.Draft?))
    && (p.voteSnapshot.Some? <==> p.voteSetupVersion.Some?)
    && (p.voteSnapshot.Some? <==> p.voteEndsAt.Some?)
    && (p.kind.InitialSetup? ==> p.voteSnapshot.Some?)
    && (p.status.Draft? ==> p.debateEndsAt.None?)
    && (p.status.Collecting? ==> Short(p) && p.debateEndsAt.None?)
    && (p.status.Expired? ==> Short(p))
    && (p.status.InDebate? ==> Reached(p) && p.debateEndsAt.Some? && (p.kind.NormalLaw? || p.kind.SetupChange?))
    && (p.voteSnapshot.Some? ==> p.status.InVoting? || IsDecided(p.status) || p.status.Archived?)
    && (p.voteSnapshot.None? ==> !p.status.InVoting? && !IsDecided(p.status))
    && (p.voteSnapshot.Some? && !p.kind.InitialSetup? ==> Reached(p))
  }

  ghost predicate SnapshotRef(t: Tables, i: Id, s: Id, phase: Phase) {
    s in t.snapshots && t.snapshots[s].proposal == i && t.snapshots[s].phase == phase
  }

  ghost predicate SetupRef(t: Tables, v: Id) { v in t.setups && ValidParams(t.setups[v].params) }

  /** The stored counter, the active signatures and the collection electorate agree. */
  ghost predicate CollectionOk(t: Tables, i: Id, p: Proposal) {
    && p.count == |Signers(t.signatures, i)|
    && (p.collectionSnapshot.None? ==> Signers(t.signatures, i) == {})
    && (p.setupVersion.Some? ==> SetupRef(t, p.setupVersion.value))
    && (p.collectionSnapshot.Some? ==>
          && SnapshotRef(t, i, p.collectionSnapshot.value, CollectionPhase)
          && Signers(t.signatures, i) <= t.snapshots[p.collectionSnapshot.value].members
          && p.target.Some? && p.target.value <= t.snapshots[p.collectionSnapshot.value].memberCount)
  }

  ghost predicate BallotsInside(t: Tables, i: Id, p: Proposal) {
    forall k :: 0 <= k < |t.ballots| && t.ballots[k].proposal == i ==>
      && p.voteSnapshot == Some(t.ballots[k].snapshot)
      && InSnapshot(t, t.ballots[k].snapshot, t.ballots[k].user)
  }

  /** A stored result is what the final ballots and the captured rules compute. */
  ghost predicate ResultOk(t: Tables, i: Id, p: Proposal) {
    && i in t.results && p.voteSnapshot.Some? && p.voteSetupVersion.Some?
    && p.voteSnapshot.value in t.snapshots && p.voteSetupVersion.value in t.setups
    && var r := t.results[i];
       var rules := Rules(t.setups[p.voteSetupVersion.value].params, p.kind);
       && r.snapshot == p.voteSnapshot.value && r.setupVersion == p.voteSetupVersion.value
       && r.electorate == t.snapshots[p.voteSnapshot.value].memberCount
       && r.tally == TallyOf(t.ballots, i)
       && r.quorumBp == rules.quorumBp && r.majorityBp == rules.majorityBp
       && ComputeResult(r.tally, r.electorate, r.quorumBp, r.majorityBp) == Calc(r.figures)
       && (IsDecided(p.status) ==> p.status == r.figures.outcome.Status())
  }

  ghost predicate VoteOk(t: Tables, i: Id, p: Proposal) {
    && BallotsInside(t, i, p)
    && StoredCount(t.ballotCounts, i) == NBallots(t.ballots, i)
    && (p.voteSnapshot.Some? ==> SnapshotRef(t, i, p.voteSnapshot.value, VotingPhase))
    && (p.voteSetupVersion.Some? ==> SetupRef(t, p.voteSetupVersion.value))
    && (i in t.results <==> p.voteSnapshot.Some? && !p.status.InVoting?)
    && (i in t.results ==> ResultOk(t, i, p))
  }

  ghost predicate ProposalOk(t: Tables, i: Id)
    requires i in t.proposals
  {
    var p := t.proposals[i];
    Shape(p) && CollectionOk(t, i, p) && VoteOk(t, i, p)
  }

  // ------------------------------------------------------------ all rows

  ghost predicate SnapshotOk(t: Tables, s: Id)
    requires s in t.snapshots
  {
    var row := t.snapshots[s];
    && row.memberCount == |row.members| && 0 < row.memberCount < U64
    && row.proposal in t.proposals
    && (row.phase.CollectionPhase? ==> t.proposals[row.proposal].collectionSnapshot == Some(s))
    && (row.phase.VotingPhase? ==> t.proposals[row.proposal].voteSnapshot == Some(s))
  }

  ghost predicate IdsOk(t: Tables) {
    && (forall i :: i in t.proposals ==> i < t.next)
    && (forall v :: v in t.setups ==> v < t.next)
    && (forall s :: s in t.snapshots ==> s < t.next)
    && (forall g :: g in t.grants ==> g < t.next)
  }

  ghost predicate RefsOk(t: Tables) {
    && (forall k :: k in t.signatures ==> k.0 in t.proposals)
    && (forall k :: 0 <= k < |t.ballots| ==> t.ballots[k].proposal in t.proposals)
    && t.ballotCounts.Keys <= t.proposals.Keys
    && t.results.Keys <= t.proposals.Keys
  }

  ghost predicate BooksOk(t: Tables) { IdsOk(t) && RefsOk(t) && DistinctBallots(t.ballots) }

  ghost predicate ProposalsOk(t: Tables) { forall i :: i in t.proposals ==> ProposalOk(t, i) }

  ghost predicate SnapshotsOk(t: Tables) { forall s :: s in t.snapshots ==> SnapshotOk(t, s) }

  // ------------------------------------------------------------ setup packages

  predicate Numbered(s: SetupStatus) { s.Adopted? || s.Superseded? }

  ghost predicate VersionOk(setups: map<Id, Setup>, v: Id)
    requires v in setups
  {
    var row := setups[v];
    && ValidParams(row.params)
    && (row.version.Some? <==> Numbered(row.status))
    && (row.version.Some? ==>
          && row.version.value >= 1
          && (row.version.value > 1 ==> row.version.value - 1 in Versions(setups, row.jurisdiction))
          && (row.status.Adopted? <==> row.version.value + 1 !in Versions(setups, row.jurisdiction)))
  }

  predicate Rivals(a: Setup, b: Setup) { a.version.Some? && a.jurisdiction == b.jurisdiction }

  /** Versions of a jurisdiction are 1..k without repetition and only k is adopted. */
  ghost predicate SetupsOk(setups: map<Id, Setup>) {
    && (forall v :: v in setups ==> VersionOk(setups, v))
    && (forall v, w :: v in setups && w in setups && v != w && Rivals(setups[v], setups[w]) ==>
          setups[v].version != setups[w].version)
  }

  predicate WasApproved(t: Tables, i: Id) {
    i in t.results && t.results[i].figures.outcome.OApproved?
  }

  ghost predicate PackageOk(t: Tables, i: Id)
    requires i in t.proposals
  {
    var p := t.proposals[i];
    p.proposedSetup.Some? ==>
      && p.proposedSetup.value in t.setups
      && var row := t.setups[p.proposedSetup.value];
         && row.jurisdiction == p.jurisdiction
         && (IsOpen(p.status) <==> row.status.Proposed?)
         && (WasApproved(t, i) <==> Numbered(row.status))
         && (WasApproved(t, i) ==> row.source == Some(i))
  }

  ghost predicate PackagesOk(t: Tables) {
    && (forall i :: i in t.proposals ==> PackageOk(t, i))
    && (forall i, j ::
          i in t.proposals && j in t.proposals && i != j && t.proposals[i].proposedSetup.Some? ==>
          t.proposals[i].proposedSetup != t.proposals[j].proposedSetup)
    && (forall v :: v in t.setups && t.setups[v].version.Some? ==>
          && t.setups[v].source.Some? && t.setups[v].source.value in t.proposals
          && t.proposals[t.setups[v].source.value].proposedSetup == Some(v)
          && WasApproved(t, t.setups[v].source.value))
  }

  /** Laws and setup changes exist only where a setup is in force; the initial plebiscite
      is open only where none is, one at a time. */
  predicate Plebiscite(t: Tables, i: Id) { i in t.proposals && t.proposals[i].kind.InitialSetup? }

  ghost predicate LawsCovered(t: Tables) {
    forall i :: i in t.proposals && !Plebiscite(t, i) ==> Covered(t, t.proposals[i].jurisdiction)
  }

  ghost predicate VotesUncovered(t: Tables) {
    forall i :: Plebiscite(t, i) && t.proposals[i].status.InVoting? ==> !Covered(t, t.proposals[i].jurisdiction)
  }

  ghost predicate OneOpen(t: Tables) {
    forall i, j ::
      Plebiscite(t, i) && Plebiscite(t, j) && i != j && t.proposals[i].status.InVoting? ==>
      !t.proposals[j].status.InVoting?
  }

  ghost predicate OneApproved(t: Tables) {
    forall i, j ::
      Plebiscite(t, i) && Plebiscite(t, j) && i != j && WasApproved(t, i) && WasApproved(t, j) ==>
      t.proposals[i].jurisdiction != t.proposals[j].jurisdiction
  }

  /** A jurisdiction that ever had a version has one in force. */
  ghost predicate HeirsOk(setups: map<Id, Setup>) {
    forall v :: v in setups && Numbered(setups[v].status) ==> HasAdopted(setups, setups[v].jurisdiction)
  }

  ghost predicate CoverOk(t: Tables) {
    LawsCovered(t) && VotesUncovered(t) && OneOpen(t) && OneApproved(t) && HeirsOk(t.setups)
  }

  // ------------------------------------------------------------ the public trail

  datatype View = View(status: Status, signatures: nat, ballots: nat)
  datatype History = Unpublished | At(view: View) | Gap

  /** Reads one event as a step of proposal `i`; an event that does not continue the
      history so far (wrong origin, skipped count) leaves a gap. */
  function ReplayStep(h: History, e: Event, i: Id): History {
    match e
    case ProposalPublished(j, _) =>
      if j != i then h else if h.Unpublished? then At(View(Collecting, 0, 0)) else Gap
    case SignatureAdded(j, count, _) =>
      if j != i then h
      else if h.At? && h.view.status.Collecting? && count == h.view.signatures + 1 then At(h.view.(signatures := count))
      else Gap
    case SignatureWithdrawn(j, count, _) =>
      if j != i then h
      else if h.At? && h.view.status.Collecting? && count + 1 == h.view.signatures then At(h.view.(signatures := count))
      else Gap
    case PhaseChanged(j, from, to) =>
      if j != i then h
      else if h.Unpublished? && from.Draft? && to.InVoting? then At(View(InVoting, 0, 0))
      else if h.At? && h.view.status == from then At(h.view.(status := to))
      else Gap
    case VoteCast(j, votes) =>
      if j != i then h
      else if h.At? && h.view.status.InVoting? && votes == h.view.ballots + 1 then At(h.view.(ballots := votes))
      else Gap
    case ProposalWithdrawn(j, from) =>
      if j != i then h else if h.At? && h.view.status == from then At(h.view.(status := Archived)) else Gap
    case ProposalArchived(j, from) =>
      if j != i then h else if h.At? && h.view.status == from then At(h.view.(status := Archived)) else Gap
    case SetupAdopted(_, _, _, _) => h
  }

  function Replay(trail: seq<Event>, i: Id): History {
    if trail == [] then Unpublished
    else ReplayStep(Replay(trail[..|trail| - 1], i), trail[|trail| - 1], i)
  }

  function Stored(t: Tables, i: Id): History {
    if i !in t.proposals || t.proposals[i].status.Draft? then Unpublished
    else At(View(t.proposals[i].status, t.proposals[i].count, NBallots(t.ballots, i)))
  }

  /** Replaying the public trail gives back the status, signatures and ballots stored. */
  ghost predicate TrailOk(t: Tables) { forall i :: Replay(t.trail, i) == Stored(t, i) }

  function Consumed(grants: map<Id, Grant>): set<Id> {
    set g | g in grants && grants[g].consumedAt.Some?
  }

  predicate IsEffect(e: Event) { e.ProposalPublished? || e.SignatureAdded? || e.VoteCast? }

  function Effects(trail: seq<Event>): nat {
    if trail == [] then 0 else Effects(trail[..|trail| - 1]) + if IsEffect(trail[|trail| - 1]) then 1 else 0
  }

  /** Each publication, signature and ballot took one grant, and nothing else did. */
  ghost predicate GrantsOk(t: Tables) { |Consumed(t.grants)| == Effects(t.trail) }

  ghost predicate Valid(t: Tables) {
    && Forest(t.catalog)
    && BooksOk(t) && ProposalsOk(t) && SnapshotsOk(t) && SetupsOk(t.setups) && PackagesOk(t) && CoverOk(t)
    && TrailOk(t) && GrantsOk(t)
  }

  lemma RowIsOk(t: Tables, i: Id)
    requires i in t.proposals && Valid(t)
    ensures ProposalOk(t, i)
  {
    hide ProposalOk;
  }

  lemma PackageIsOk(t: Tables, i: Id)
    requires i in t.proposals && Valid(t)
    ensures PackageOk(t, i)
  {
    hide PackageOk;
  }

  lemma EmptyIsValid(catalog: Catalog)
    requires Forest(catalog)
    ensures Valid(EmptyTables(catalog))
  {
  }

  lemma Appended(trail: seq<Event>, e: Event, i: Id)
    ensures Replay(trail + [e], i) == ReplayStep(Replay(trail, i), e, i)
    ensures Effects(trail + [e]) == Effects(trail) + if IsEffect(e) then 1 else 0
  {
    assert (trail + [e])[..|trail|] == trail;
  }

  // ------------------------------------------------------------ locality

  predicate SameTerms(a: Setup, b: Setup) { a.jurisdiction == b.jurisdiction && a.params == b.params }

  /** Everything a transaction about proposal `i` leaves alone. */
  ghost predicate Local(t: Tables, u: Tables, i: Id) {
    && u.catalog == t.catalog && t.next <= u.next
    && t.proposals.Keys <= u.proposals.Keys <= t.proposals.Keys + {i}
    && (forall j :: j in t.proposals && j != i ==> u.proposals[j] == t.proposals[j])
    && (forall s :: s in t.snapshots ==> s in u.snapshots && u.snapshots[s] == t.snapshots[s])
    && (forall s :: s in u.snapshots && s !in t.snapshots ==> u.snapshots[s].proposal == i)
    && (forall k: (Id, Id) :: k.0 != i ==> (k in t.signatures <==> k in u.signatures))
    && (forall k: (Id, Id) :: k.0 != i && k in t.signatures ==> u.signatures[k] == t.signatures[k])
    && (u.ballots == t.ballots || exists b: Ballot :: b.proposal == i && u.ballots == t.ballots + [b])
    && (forall j :: j != i ==> (j in t.ballotCounts <==> j in u.ballotCounts))
    && (forall j :: j != i && j in t.ballotCounts ==> u.ballotCounts[j] == t.ballotCounts[j])
    && (forall j :: j != i ==> (j in t.results <==> j in u.results))
    && (forall j :: j != i && j in t.results ==> u.results[j] == t.results[j])
    && t.setups.Keys <= u.setups.Keys
    && (forall v :: v in t.setups ==> SameTerms(t.setups[v], u.setups[v]))
  }

  lemma BallotsOfOthers(t: Tables, u: Tables, i: Id, j: Id)
    requires Local(t, u, i) && j != i
    ensures NBallots(u.ballots, j) == NBallots(t.ballots, j)
    ensures TallyOf(u.ballots, j) == TallyOf(t.ballots, j)
  {
    if b: Ballot :| b.proposal == i && u.ballots == t.ballots + [b] {
      BallotAppended(t.ballots, b, j);
    }
  }

  lemma OtherBallots(t: Tables, u: Tables, i: Id, j: Id)
    requires Local(t, u, i) && j != i && j in t.proposals && BallotsInside(t, j, t.proposals[j])
    ensures BallotsInside(u, j, t.proposals[j])
  {
    var p := t.proposals[j];
    forall k | 0 <= k < |u.ballots| && u.ballots[k].proposal == j
      ensures p.voteSnapshot == Some(u.ballots[k].snapshot) && InSnapshot(u, u.ballots[k].snapshot, u.ballots[k].user)
    {
      assert u.ballots[k] == t.ballots[k];
    }
  }

  lemma OtherCollection(t: Tables, u: Tables, i: Id, j: Id)
    requires Local(t, u, i) && j != i && j in t.proposals && CollectionOk(t, j, t.proposals[j])
    ensures CollectionOk(u, j, t.proposals[j])
  {
    assert Signers(u.signatures, j) == Signers(t.signatures, j);
    hide Signers, ValidParams;
  }

  lemma OtherVote(t: Tables, u: Tables, i: Id, j: Id)
    requires Local(t, u, i) && j != i && j in t.proposals && VoteOk(t, j, t.proposals[j])
    ensures VoteOk(u, j, t.proposals[j])
  {
    BallotsOfOthers(t, u, i, j);
    OtherBallots(t, u, i, j);
    hide BallotsInside, ValidParams, NBallots, TallyOf, ComputeResult, Rules;
  }

  lemma OtherKept(t: Tables, u: Tables, i: Id, j: Id)
    requires Local(t, u, i) && j != i && j in t.proposals && ProposalOk(t, j)
    ensures ProposalOk(u, j)
  {
    OtherCollection(t, u, i, j);
    OtherVote(t, u, i, j);
    hide CollectionOk, VoteOk, Shape;
  }

  /** A transaction about one proposal keeps the invariant of every other one, so the
      invariant of all proposals reduces to the touched one. */
  lemma OthersKept(t: Tables, u: Tables, i: Id)
    requires Local(t, u, i) && ProposalsOk(t)
    requires i in u.proposals ==> ProposalOk(u, i)
    ensures ProposalsOk(u)
  {
    forall j | j in u.proposals
      ensures ProposalOk(u, j)
    {
      if j != i {
        assert ProposalOk(t, j);
        OtherKept(t, u, i, j);
      }
    }
  }
}
