/** The stored rows of the legislative engine and the queries over them
    (migrations/0200_setup_proposals.sql, migrations/0400_voting.sql). Tables are
    maps by primary key; ballots and the public trail are append-only sequences. */
module Tables {
  import opened Prelude
  import opened Electoral
  import opened Territory

  datatype Phase = CollectionPhase | VotingPhase

  datatype Proposal = Proposal(
    kind: Kind, jurisdiction: Id, author: Id, status: Status,
    proposedSetup: Option<Id>, setupVersion: Option<Id>, collectionSnapshot: Option<Id>,
    target: Option<nat>, count: nat, quotaYear: Option<int>,
    collectEndsAt: Option<int>, debateEndsAt: Option<int>,
    voteSetupVersion: Option<Id>, voteSnapshot: Option<Id>, voteEndsAt: Option<int>,
    publishedAt: Option<int>, closedAt: Option<int>, archivedAt: Option<int>)

  datatype SetupStatus = Proposed | Adopted | Superseded | SetupRejected
  datatype Setup = Setup(
    jurisdiction: Id, version: Option<nat>, status: SetupStatus, source: Option<Id>, params: SetupParams)

  datatype Snapshot = Snapshot(
    proposal: Id, phase: Phase, jurisdiction: Id, setupVersion: Id, memberCount: nat, members: set<Id>)

  datatype Ballot = Ballot(proposal: Id, user: Id, snapshot: Id, choice: Choice)

  datatype VoteResult = VoteResult(
    snapshot: Id, setupVersion: Id, electorate: nat, tally: Tally,
    quorumBp: nat, majorityBp: nat, figures: ResultCalc, closedAt: int)

  datatype Critical = CreateProposal | SignProposal | VoteProposal | VoteSetup | ManageIam
  datatype Grant = Grant(
    session: Id, action: Critical, resource: Id, createdAt: int, expiresAt: int, consumedAt: Option<int>)

  datatype KeyAction = KPublish | KSign | KUnsign | KCast
  datatype Payload = OnProposal(id: Id) | OnChoice(id: Id, choice: Choice)
  datatype Response =
    | Published(id: Id, target: nat, collectEndsAt: int)
    | SignatureState(status: Status, count: nat, target: nat, signed: bool)
    | CastConfirmation(id: Id, choice: Choice, castAt: int)
  datatype KeyRow = KeyRow(action: KeyAction, payload: Payload, response: Response)

  /** Public audit events of the engine, reduced to what their payloads count. */
  datatype Event =
    | ProposalPublished(id: Id, target: nat)
    | SignatureAdded(id: Id, count: nat, target: nat)
    | SignatureWithdrawn(id: Id, count: nat, target: nat)
    | PhaseChanged(id: Id, from: Status, to: Status)
    | VoteCast(id: Id, votes: nat)
    | ProposalWithdrawn(id: Id, from: Status)
    | ProposalArchived(id: Id, from: Status)
    | SetupAdopted(setup: Id, jurisdiction: Id, version: nat, source: Option<Id>)

  /** `next` stands for `new_id`: ids are never reused. */
  datatype Tables = Tables(
    next: Id, catalog: Catalog,
    proposals: map<Id, Proposal>, setups: map<Id, Setup>, snapshots: map<Id, Snapshot>,
    signatures: map<(Id, Id), bool>, ballots: seq<Ballot>, ballotCounts: map<Id, nat>,
    results: map<Id, VoteResult>, grants: map<Id, Grant>, keys: map<(Id, string), KeyRow>,
    trail: seq<Event>)

  function EmptyTables(catalog: Catalog): Tables {
    Tables(0, catalog, map[], map[], map[], map[], [], map[], map[], map[], map[], [])
  }

  // ------------------------------------------------------------ requests

  datatype Flag = ProposalsFlag | SignaturesFlag | VotingFlag
  datatype Permission =
    | MayCreate | MaySign | MayVote | MayVoteSetup | MayStartSetup | MayArchive

  datatype Actor = Actor(
    user: Id, session: Id, municipality: Id, state: Id, country: Id, may: set<Permission>) {
    predicate ParticipatesIn(j: Id) { j == municipality || j == state || j == country }
  }

  /** What a transaction reads from outside these tables: the clock after the writer
      was acquired, the civil year, the flags and the eligible accounts per jurisdiction. */
  datatype Env = Env(now: int, year: int, flags: set<Flag>, eligible: map<Id, set<Id>>)

  function Eligible(env: Env, j: Id): set<Id> {
    if j in env.eligible then env.eligible[j] else {}
  }

  datatype DraftInput = DraftInput(kind: Kind, level: Level, package: Option<SetupParams>)

  function AuthorJurisdiction(actor: Actor, level: Level): Id {
    match level
    case National => actor.country
    case State => actor.state
    case Municipal => actor.municipality
  }

  // ------------------------------------------------------------ queries

  function NBallots(bs: seq<Ballot>, i: Id): nat {
    if bs == [] then 0
    else NBallots(bs[..|bs| - 1], i) + if bs[|bs| - 1].proposal == i then 1 else 0
  }

  function NChoice(bs: seq<Ballot>, i: Id, c: Choice): nat {
    if bs == [] then 0
    else NChoice(bs[..|bs| - 1], i, c) + if bs[|bs| - 1].proposal == i && bs[|bs| - 1].choice == c then 1 else 0
  }

  function TallyOf(bs: seq<Ballot>, i: Id): Tally {
    Tally(NChoice(bs, i, Yes), NChoice(bs, i, No), NChoice(bs, i, Abstain))
  }

  function Voters(bs: seq<Ballot>, i: Id): set<Id> {
    set k | 0 <= k < |bs| && bs[k].proposal == i :: bs[k].user
  }

  predicate HasVoted(bs: seq<Ballot>, i: Id, u: Id) { u in Voters(bs, i) }

  function Signers(sigs: map<(Id, Id), bool>, i: Id): set<Id> {
    set k | k in sigs && k.0 == i && sigs[k] :: k.1
  }

  function StoredCount(counts: map<Id, nat>, i: Id): nat {
    if i in counts then counts[i] else 0
  }

  predicate IsAdopted(setups: map<Id, Setup>, j: Id, v: Id) {
    v in setups && setups[v].jurisdiction == j && setups[v].status.Adopted?
  }

  ghost predicate HasAdopted(setups: map<Id, Setup>, j: Id) { exists v :: IsAdopted(setups, j, v) }

  ghost predicate HitAt(t: Tables, j: Id, n: nat) {
    Up(t.catalog, j, n).Some? && HasAdopted(t.setups, Up(t.catalog, j, n).value)
  }

  /** Some ancestor of `j` (or `j` itself) has an adopted setup. */
  ghost predicate Covered(t: Tables, j: Id) { exists n :: HitAt(t, j, n) }

  ghost function NearestHit(t: Tables, j: Id): (n: nat)
    requires Covered(t, j)
    ensures HitAt(t, j, n) && forall m: nat :: m < n ==> !HitAt(t, j, m)
  {
    var n :| HitAt(t, j, n);
    LeastHit(t, j, n);
    var least :| HitAt(t, j, least) && forall m: nat :: m < least ==> !HitAt(t, j, m);
    least
  }

  lemma LeastHit(t: Tables, j: Id, n: nat)
    requires HitAt(t, j, n)
    ensures exists l :: HitAt(t, j, l) && forall m: nat :: m < l ==> !HitAt(t, j, m)
  {
    if m: nat :| m < n && HitAt(t, j, m) {
      LeastHit(t, j, m);
    }
  }

  lemma NearestIs(t: Tables, j: Id, n: nat)
    requires HitAt(t, j, n) && forall m: nat :: m < n ==> !HitAt(t, j, m)
    ensures Covered(t, j) && NearestHit(t, j) == n
  {
    var k := NearestHit(t, j);
  }

  ghost function AdoptedRow(setups: map<Id, Setup>, j: Id): (v: Id)
    requires HasAdopted(setups, j)
    ensures IsAdopted(setups, j, v)
  {
    var v :| IsAdopted(setups, j, v);
    v
  }

  /** The adopted version of the jurisdiction, otherwise of its nearest ancestor. */
  ghost function EffectiveSetup(t: Tables, j: Id): (v: Option<Id>)
    ensures v.Some? <==> Covered(t, j)
    ensures v.Some? ==> v.value in t.setups && t.setups[v.value].status.Adopted?
  {
    if Covered(t, j) then Some(AdoptedRow(t.setups, Up(t.catalog, j, NearestHit(t, j)).value)) else None
  }

  function Versions(setups: map<Id, Setup>, j: Id): set<nat> {
    set v | v in setups && setups[v].jurisdiction == j && setups[v].version.Some? :: setups[v].version.value
  }

  /** COALESCE(MAX(version), 0) of a jurisdiction. */
  ghost function MaxVersion(setups: map<Id, Setup>, j: Id): (m: nat)
    ensures forall n :: n in Versions(setups, j) ==> n <= m
    ensures m in Versions(setups, j) || (m == 0 && Versions(setups, j) == {})
  {
    if Versions(setups, j) == {} then 0
    else
      GreatestExists(Versions(setups, j));
      var m: nat :| IsGreatest(Versions(setups, j), m);
      m
  }

  // ------------------------------------------------------------ counting facts

  lemma {:induction false} ChoicesSum(bs: seq<Ballot>, i: Id)
    ensures TallyOf(bs, i).Participation() == NBallots(bs, i)
  {
    if bs != [] {
      ChoicesSum(bs[..|bs| - 1], i);
    }
  }

  ghost predicate DistinctBallots(bs: seq<Ballot>) {
    forall k, l :: 0 <= k < l < |bs| ==> !(bs[k].proposal == bs[l].proposal && bs[k].user == bs[l].user)
  }

  lemma VotersExtend(bs: seq<Ballot>, b: Ballot, i: Id)
    ensures Voters(bs + [b], i) == Voters(bs, i) + if b.proposal == i then {b.user} else {}
  {
    var more := bs + [b];
    forall u | u in Voters(bs, i) + if b.proposal == i then {b.user} else {}
      ensures u in Voters(more, i)
    {
      if u in Voters(bs, i) {
        var k :| 0 <= k < |bs| && bs[k].proposal == i && bs[k].user == u;
        assert more[k] == bs[k];
      } else {
        assert more[|bs|] == b;
      }
    }
  }

  lemma {:induction false} VotersCount(bs: seq<Ballot>, i: Id)
    requires DistinctBallots(bs)
    ensures |Voters(bs, i)| == NBallots(bs, i)
  {
    if bs != [] {
      var init, last := bs[..|bs| - 1], bs[|bs| - 1];
      VotersCount(init, i);
      assert bs == init + [last];
      VotersExtend(init, last, i);
    }
  }

  lemma BallotAppended(bs: seq<Ballot>, b: Ballot, i: Id)
    ensures NBallots(bs + [b], i) == NBallots(bs, i) + if b.proposal == i then 1 else 0
    ensures forall c :: NChoice(bs + [b], i, c) ==
                        NChoice(bs, i, c) + if b.proposal == i && b.choice == c then 1 else 0
  {
    assert (bs + [b])[..|bs|] == bs;
  }
}
