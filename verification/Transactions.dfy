/** Specification of every write transaction of the legislative engine as a function
    from stored tables to new tables or an error. An error stands for a transaction
    dropped without commit, so it carries no tables. */
module Transactions {
  import opened Prelude
  import opened Electoral
  import opened Territory
  import opened Tables

  // ------------------------------------------------------------ row helpers

  /** CHECK constraints of the proposals table. */
  predicate RowCheck(p: Proposal) {
    && (p.status.Draft? <==> p.publishedAt.None?)
    && (p.status.Archived? <==> p.archivedAt.Some?)
    && (p.target.Some? ==> p.target.value >= 1)
  }

  /** UPDATE of one proposal under the table's CHECKs and its archived-is-final trigger. */
  function Put(t: Tables, i: Id, p: Proposal): Result<Tables>
    requires i in t.proposals
  {
    if t.proposals[i].status.Archived? || !RowCheck(p) then Err(Internal)
    else Ok(t.(proposals := t.proposals[i := p]))
  }

  function Log(t: Tables, e: Event): Tables { t.(trail := t.trail + [e]) }

  function Load(t: Tables, i: Id): Result<Proposal> {
    if i in t.proposals then Ok(t.proposals[i]) else Err(NotFound)
  }

  // ------------------------------------------------------------ reauth and idempotency

  const VALIDITY: int := 300_000

  function GrantTx(t: Tables, now: int, session: Id, action: Critical, resource: Id): Tables {
    t.(next := t.next + 1,
       grants := t.grants[t.next := Grant(session, action, resource, now, now + VALIDITY, None)])
  }

  predicate Usable(g: Grant, now: int, session: Id, action: Critical, resource: Id) {
    g.session == session && g.action == action && g.resource == resource
    && g.consumedAt.None? && g.expiresAt > now
  }

  function UsableGrants(grants: map<Id, Grant>, now: int, session: Id, action: Critical, resource: Id): set<Id> {
    set g | g in grants && Usable(grants[g], now, session, action, resource)
  }

  /** Order by creation instant; ties, which the query leaves open, go to the lower id. */
  predicate Before(grants: map<Id, Grant>, g: Id, h: Id)
    requires g in grants && h in grants
  {
    grants[g].createdAt < grants[h].createdAt || (grants[g].createdAt == grants[h].createdAt && g <= h)
  }

  predicate IsOldest(grants: map<Id, Grant>, s: set<Id>, g: Id)
    requires s <= grants.Keys
  {
    g in s && forall h :: h in s ==> Before(grants, g, h)
  }

  lemma OldestExists(grants: map<Id, Grant>, s: set<Id>)
    requires s <= grants.Keys && s != {}
    ensures exists g :: IsOldest(grants, s, g)
  {
    var x :| x in s;
    if s == {x} {
      assert IsOldest(grants, s, x);
    } else {
      OldestExists(grants, s - {x});
      var g :| IsOldest(grants, s - {x}, g);
      assert forall h :: h in s ==> h == x || h in s - {x};
      var least := if Before(grants, x, g) then x else g;
      assert IsOldest(grants, s, least);
    }
  }

  lemma OldestIsUnique(grants: map<Id, Grant>, s: set<Id>, g: Id, h: Id)
    requires s <= grants.Keys && IsOldest(grants, s, g) && IsOldest(grants, s, h)
    ensures g == h
  {
    assert Before(grants, g, h) && Before(grants, h, g);
  }

  ghost function Oldest(grants: map<Id, Grant>, s: set<Id>): (g: Id)
    requires s <= grants.Keys && s != {}
    ensures IsOldest(grants, s, g)
  {
    OldestExists(grants, s);
    var g :| IsOldest(grants, s, g);
    g
  }

  ghost function Consume(t: Tables, now: int, session: Id, action: Critical, resource: Id): Result<Tables> {
    var usable := UsableGrants(t.grants, now, session, action, resource);
    if usable == {} then Err(ReauthRequired)
    else
      var g := Oldest(t.grants, usable);
      Ok(t.(grants := t.grants[g := t.grants[g].(consumedAt := Some(now))]))
  }

  /** The stored response of a replay, `None` for a new key. */
  function Lookup(t: Tables, user: Id, key: Option<string>, action: KeyAction,
                  payload: Payload): Result<Option<Response>>
  {
    if key.None? || (user, key.value) !in t.keys then Ok(None)
    else
      var row := t.keys[(user, key.value)];
      if row.action != action || row.payload != payload then Err(Conflict(KeyReused))
      else Ok(Some(row.response))
  }

  function Store(t: Tables, user: Id, key: Option<string>, action: KeyAction, payload: Payload,
                 response: Response): Tables
  {
    if key.None? then t
    else t.(keys := t.keys[(user, key.value) := KeyRow(action, payload, response)])
  }

  // ------------------------------------------------------------ setup packages

  function InsertProposed(t: Tables, j: Id, params: SetupParams): Result<(Tables, Id)> {
    if !ValidParams(params) then Err(Validation)
    else Ok((t.(next := t.next + 1, setups := t.setups[t.next := Setup(j, None, Proposed, None, params)]), t.next))
  }

  function Rejection(setups: map<Id, Setup>, package: Option<Id>): map<Id, Setup> {
    if package.Some? && package.value in setups && setups[package.value].status.Proposed?
    then setups[package.value := setups[package.value].(status := SetupRejected)]
    else setups
  }

  function RejectPackage(t: Tables, package: Option<Id>): Tables {
    t.(setups := Rejection(t.setups, package))
  }

  function SupersedeAll(setups: map<Id, Setup>, j: Id): map<Id, Setup> {
    map v | v in setups :: if IsAdopted(setups, j, v) then setups[v].(status := Superseded) else setups[v]
  }

  /** The rows after package `v` becomes the given version of its jurisdiction. */
  function Adoption(setups: map<Id, Setup>, v: Id, version: nat, source: Option<Id>): map<Id, Setup>
    requires v in setups
  {
    SupersedeAll(setups, setups[v].jurisdiction)[
      v := setups[v].(status := Adopted, version := Some(version), source := source)]
  }

  ghost function AdoptProposed(t: Tables, v: Id, source: Option<Id>): Result<Tables> {
    if v !in t.setups then Err(NotFound)
    else if !t.setups[v].status.Proposed? then Err(Conflict(NotProposed))
    else
      var j := t.setups[v].jurisdiction;
      var version := MaxVersion(t.setups, j) + 1;
      Ok(Log(t.(setups := Adoption(t.setups, v, version, source)), SetupAdopted(v, j, version, source)))
  }

  // ------------------------------------------------------------ phases

  function TakeSnapshot(t: Tables, env: Env, i: Id, phase: Phase, j: Id, setup: Id): Result<(Tables, Id, nat)> {
    var members := Eligible(env, j);
    if members == {} then Err(Conflict(EmptyElectorate))
    else if exists s :: s in t.snapshots && t.snapshots[s].proposal == i && t.snapshots[s].phase == phase
              then Err(Internal)
    else
      var row := Snapshot(i, phase, j, setup, |members|, members);
      Ok((t.(next := t.next + 1, snapshots := t.snapshots[t.next := row]), t.next, |members|))
  }

  function OpenVotingWith(t: Tables, env: Env, i: Id, p: Proposal, setup: Id, params: SetupParams): Result<Tables>
    requires i in t.proposals
  {
    var (t1, snapshot, _) :- TakeSnapshot(t, env, i, VotingPhase, p.jurisdiction, setup);
    :- Require(t1.proposals[i].status == p.status, PhaseClosed);
    var row := t1.proposals[i].(
      status := InVoting, voteSetupVersion := Some(setup), voteSnapshot := Some(snapshot),
      voteEndsAt := Some(env.now + Rules(params, p.kind).voteDays * DAY));
    var t2 :- Put(t1, i, row);
    Ok(Log(t2, PhaseChanged(i, p.status, InVoting)))
  }

  ghost function OpenVoting(t: Tables, env: Env, i: Id, p: Proposal): Result<Tables>
    requires i in t.proposals
  {
    if !CanTransition(p.kind, p.status, InVoting) then Err(PhaseClosed)
    else
      var setup := EffectiveSetup(t, p.jurisdiction);
      if setup.None? then Err(Conflict(NoSetup))
      else OpenVotingWith(t, env, i, p, setup.value, t.setups[setup.value].params)
  }

  ghost function CloseCollection(t: Tables, env: Env, i: Id, p: Proposal): Result<(Tables, Status)>
    requires i in t.proposals
  {
    match AfterCollection(p.kind)
    case None => Err(Internal)
    case Some(InDebate) =>
      if p.setupVersion.None? || p.setupVersion.value !in t.setups then Err(Internal)
      else
        var days := Rules(t.setups[p.setupVersion.value].params, p.kind).debateDays;
        if days.None? then Err(Internal)
        else if !t.proposals[i].status.Collecting? then Err(PhaseClosed)
        else
          var t1 :- Put(t, i, t.proposals[i].(status := InDebate, debateEndsAt := Some(env.now + days.value * DAY)));
          Ok((Log(t1, PhaseChanged(i, p.status, InDebate)), InDebate))
    case Some(next) =>
      var t1 :- OpenVoting(t, env, i, p);
      Ok((t1, next))
  }

  predicate DeadlinePassed(p: Proposal, now: int) {
    || (p.status.Collecting? && p.collectEndsAt.Some? && p.collectEndsAt.value <= now)
    || (p.status.InDebate? && p.debateEndsAt.Some? && p.debateEndsAt.value <= now)
  }

  /** The deadline ended the proposal: the row closes and its package is rejected. */
  function EndPhase(t: Tables, i: Id, row: Proposal): Result<Tables>
    requires i in t.proposals
  {
    match Put(t, i, row)
    case Err(e) => Err(e)
    case Ok(t1) =>
      Ok(RejectPackage(Log(t1, PhaseChanged(i, t.proposals[i].status, row.status)), t.proposals[i].proposedSetup))
  }

  /** One candidate of `advance_due`, re-checked inside its own transaction. */
  ghost function AdvanceTx(t: Tables, env: Env, i: Id): Result<(Tables, Option<Status>)> {
    if i !in t.proposals || !DeadlinePassed(t.proposals[i], env.now) then Ok((t, None))
    else
      var p := t.proposals[i];
      if p.status.Collecting? then
        var t1 :- EndPhase(t, i, p.(status := Expired, closedAt := Some(env.now)));
        Ok((t1, Some(Expired)))
      else
        match OpenVoting(t, env, i, p)
        case Ok(t1) => Ok((t1, Some(InVoting)))
        case Err(Conflict(_)) =>
          var t1 :- EndPhase(t, i, p.(status := Archived, archivedAt := Some(env.now), closedAt := Some(env.now)));
          Ok((t1, Some(Archived)))
        case Err(e) => Err(e)
  }

  predicate VoteDue(p: Proposal, now: int) {
    p.status.InVoting? && p.voteEndsAt.Some? && p.voteEndsAt.value <= now
  }

  function VoteRules(t: Tables, p: Proposal): Result<(nat, nat, nat)> {
    if p.voteSnapshot.None? || p.voteSetupVersion.None? then Err(PhaseClosed)
    else if p.voteSnapshot.value !in t.snapshots || p.voteSetupVersion.value !in t.setups then Err(Internal)
    else
      var rules := Rules(t.setups[p.voteSetupVersion.value].params, p.kind);
      Ok((t.snapshots[p.voteSnapshot.value].memberCount, rules.quorumBp, rules.majorityBp))
  }

  /** The package of a closed vote is adopted or rejected with it. */
  ghost function Settle(t: Tables, i: Id, package: Option<Id>, approved: bool): Result<Tables> {
    if package.None? then Ok(t)
    else if approved then AdoptProposed(t, package.value, Some(i))
    else Ok(RejectPackage(t, package))
  }

  ghost function CloseVote(t: Tables, env: Env, i: Id, tally: Tally): Result<(Tables, ResultCalc)> {
    var p :- Load(t, i);
    :- Require(p.status.InVoting?, PhaseClosed);
    var (electorate, quorumBp, majorityBp) :- VoteRules(t, p);
    match ComputeResult(tally, electorate, quorumBp, majorityBp)
    case Calc(figures) =>
      var to := figures.outcome.Status();
      var t1 :- Put(t, i, p.(status := to, closedAt := Some(env.now)));
      var t2 :- Settle(t1, i, p.proposedSetup, to.Approved?);
      Ok((Log(t2, PhaseChanged(i, InVoting, to)), figures))
    case _ => Err(Internal)
  }

  /** One candidate of `close_due_votes`, re-checked inside its own transaction. */
  ghost function CloseTx(t: Tables, env: Env, i: Id): Result<(Tables, Option<Status>)> {
    if i !in t.proposals || !VoteDue(t.proposals[i], env.now) then Ok((t, None))
    else
      var p := t.proposals[i];
      var tally := TallyOf(t.ballots, i);
      var (electorate, quorumBp, majorityBp) :- VoteRules(t, p);
      var (t1, figures) :- CloseVote(t, env, i, tally);
      :- Require(i !in t1.results && tally.Participation() <= electorate, Internal);
      var row := VoteResult(p.voteSnapshot.value, p.voteSetupVersion.value, electorate, tally,
                            quorumBp, majorityBp, figures, env.now);
      Ok((t1.(results := t1.results[i := row]), Some(figures.outcome.Status())))
  }

  function BlankDraft(kind: Kind, j: Id, author: Id): Proposal {
    Proposal(kind, j, author, Draft, None, None, None, None, 0, None, None, None, None, None, None, None, None, None)
  }

  predicate PlebisciteOpen(t: Tables) {
    exists i :: i in t.proposals && t.proposals[i].kind.InitialSetup? && t.proposals[i].status.InVoting?
  }

  ghost function StartTx(t: Tables, env: Env, actor: Actor, params: SetupParams): Result<(Tables, Id)> {
    if MayStartSetup !in actor.may then Err(Forbidden) else
    :- Require(EffectiveSetup(t, actor.country).None?, Conflict(SetupExists));
    :- Require(!PlebisciteOpen(t), Conflict(SetupInProgress));
    var (t1, package) :- InsertProposed(t, actor.country, params);
    var i := t1.next;
    var draft := BlankDraft(InitialSetup, actor.country, actor.user).(proposedSetup := Some(package));
    var t2 := t1.(next := i + 1, proposals := t1.proposals[i := draft]);
    var (t3, snapshot, _) :- TakeSnapshot(t2, env, i, VotingPhase, actor.country, package);
    var t4 :- Put(t3, i, draft.(
      status := InVoting, publishedAt := Some(env.now), voteSetupVersion := Some(package),
      voteSnapshot := Some(snapshot), voteEndsAt := Some(env.now + Rules(params, InitialSetup).voteDays * DAY)));
    Ok((Log(t4, PhaseChanged(i, Draft, InVoting)), i))
  }

  // ------------------------------------------------------------ drafts and publication

  function DraftPackage(input: DraftInput): Result<Option<SetupParams>> {
    if !input.kind.SetupChange? then Ok(None)
    else if input.package.None? || !ValidParams(input.package.value) then Err(Validation)
    else Ok(input.package)
  }

  ghost function SaveDraftTx(t: Tables, env: Env, actor: Actor, id: Option<Id>,
                             input: DraftInput): Result<(Tables, Id)>
  {
    if ProposalsFlag !in env.flags then Err(FeatureDisabled) else
    :- Require(MayCreate in actor.may, Forbidden);
    :- Require(CitizenCreatable(input.kind), Forbidden);
    var proposed :- DraftPackage(input);
    var j := AuthorJurisdiction(actor, input.level);
    :- Require(EffectiveSetup(t, j).Some?, Conflict(NoSetup));
    var (t1, i) :- OwnDraft(t, actor, id, input.kind, j);
    var t2 :- WriteDraft(t1, i, input.kind, j, proposed);
    Ok((t2, i))
  }

  /** The row with its new package, if any, inserted first. */
  function WriteDraft(t: Tables, i: Id, kind: Kind, j: Id, proposed: Option<SetupParams>): Result<Tables>
    requires i in t.proposals
  {
    if proposed.None? then Put(t, i, t.proposals[i].(kind := kind, jurisdiction := j, proposedSetup := None))
    else
      match InsertProposed(t, j, proposed.value)
      case Err(e) => Err(e)
      case Ok((t1, v)) => Put(t1, i, t1.proposals[i].(kind := kind, jurisdiction := j, proposedSetup := Some(v)))
  }

  /** The author's draft with its previous package rejected, or a new empty draft. */
  function OwnDraft(t: Tables, actor: Actor, id: Option<Id>, kind: Kind, j: Id): (r: Result<(Tables, Id)>)
    ensures r.Ok? ==> r.value.1 in r.value.0.proposals && r.value.0.proposals[r.value.1].status.Draft?
  {
    match id
    case Some(i) =>
      var p :- Load(t, i);
      :- Require(p.author == actor.user, NotFound);
      :- Require(p.status.Draft?, PhaseClosed);
      Ok((RejectPackage(t, p.proposedSetup), i))
    case None =>
      Ok((t.(next := t.next + 1, proposals := t.proposals[t.next := BlankDraft(kind, j, actor.user)]), t.next))
  }

  function QuotaRows(t: Tables, author: Id, kind: Kind, year: int): set<Id> {
    set i | i in t.proposals && t.proposals[i].author == author && t.proposals[i].kind == kind
            && t.proposals[i].quotaYear == Some(year)
  }

  function QuotaUsed(t: Tables, author: Id, kind: Kind, year: int): nat { |QuotaRows(t, author, kind, year)| }

  function Max1(n: nat): nat { if n == 0 then 1 else n }

  ghost function PublishTx(t: Tables, env: Env, actor: Actor, i: Id, key: Option<string>): Result<(Tables, Response)> {
    if ProposalsFlag !in env.flags then Err(FeatureDisabled) else
    :- Require(MayCreate in actor.may, Forbidden);
    var previous :- Lookup(t, actor.user, key, KPublish, OnProposal(i));
    if previous.Some? then Ok((t, previous.value))
    else
      var p :- Load(t, i);
      :- Require(p.author == actor.user, NotFound);
      :- Require(CanTransition(p.kind, p.status, Collecting), PhaseClosed);
      :- Require(actor.ParticipatesIn(p.jurisdiction), Forbidden);
      var setup := EffectiveSetup(t, p.jurisdiction);
      if setup.None? then Err(Conflict(NoSetup))
      else
        var params := t.setups[setup.value].params;
        var rules := Rules(params, p.kind);
        :- Require(rules.quotaPerYear.None? || QuotaUsed(t, actor.user, p.kind, env.year) < rules.quotaPerYear.value,
                   Conflict(Quota));
        var t1 :- Consume(t, env.now, actor.session, CreateProposal, i);
        var (t2, snapshot, electorate) :- TakeSnapshot(t1, env, i, CollectionPhase, p.jurisdiction, setup.value);
        if p.jurisdiction !in t2.catalog then Err(NotFound)
        else
          var target := Max1(MinCount(SignatureBp(params, t2.catalog[p.jurisdiction].level), electorate));
          if rules.collectDays.None? then Err(Internal)
          else
            var ends := env.now + rules.collectDays.value * DAY;
            :- Require(t2.proposals[i].status.Draft?, PhaseClosed);
            var t3 :- Put(t2, i, t2.proposals[i].(
              status := Collecting, setupVersion := setup, collectionSnapshot := Some(snapshot),
              target := Some(target),
              quotaYear := if rules.quotaPerYear.Some? then Some(env.year) else None,
              collectEndsAt := Some(ends), publishedAt := Some(env.now)));
            var response := Published(i, target, ends);
            Ok((Store(Log(t3, ProposalPublished(i, target)), actor.user, key, KPublish, OnProposal(i), response),
                response))
  }

  /** Archives a row loaded in this transaction and rejects its package. */
  function ArchiveRow(t: Tables, env: Env, i: Id, p: Proposal, e: Event): Result<Tables>
    requires i in t.proposals
  {
    if !(t.proposals[i].status == p.status) then Err(PhaseClosed) else
    var closed := if t.proposals[i].closedAt.Some? then t.proposals[i].closedAt else Some(env.now);
    var t1 :- Put(t, i, t.proposals[i].(status := Archived, archivedAt := Some(env.now), closedAt := closed));
    var t2 := RejectPackage(t1, p.proposedSetup);
    Ok(if p.status.Draft? then t2 else Log(t2, e))
  }

  function WithdrawTx(t: Tables, env: Env, actor: Actor, i: Id): Result<Tables> {
    var p :- Load(t, i);
    if p.author != actor.user then Err(if p.status.Draft? then NotFound else Forbidden)
    else if !(p.status.Draft? || p.status.Collecting?) || !CanTransition(p.kind, p.status, Archived)
              then Err(PhaseClosed)
    else ArchiveRow(t, env, i, p, ProposalWithdrawn(i, p.status))
  }

  function ArchiveTx(t: Tables, env: Env, actor: Actor, i: Id): Result<Tables> {
    if MayArchive !in actor.may then Err(Forbidden) else
    var p :- Load(t, i);
    :- Require(IsTerminal(p.status), PhaseClosed);
    ArchiveRow(t, env, i, p, ProposalArchived(i, p.status))
  }

  // ------------------------------------------------------------ signatures

  function OpenCollection(t: Tables, now: int, i: Id): Result<Proposal> {
    var p :- Load(t, i);
    :- Require(!p.status.Draft?, NotFound);
    :- Require(p.status.Collecting? && p.collectEndsAt.Some? && now < p.collectEndsAt.value, PhaseClosed);
    Ok(p)
  }

  /** One signature more or less on the stored counter, guarded by the value read. */
  function AdjustCount(t: Tables, i: Id, p: Proposal, added: bool): Result<(Tables, nat)>
    requires i in t.proposals
  {
    if !(added || p.count > 0) then Err(Internal) else
    var count := if added then p.count + 1 else p.count - 1;
    :- Require(t.proposals[i].status.Collecting? && t.proposals[i].count == p.count, Internal);
    var t1 :- Put(t, i, t.proposals[i].(count := count));
    Ok((t1, count))
  }

  function InSnapshot(t: Tables, s: Id, u: Id): bool {
    s in t.snapshots && u in t.snapshots[s].members
  }

  function IsActive(t: Tables, i: Id, u: Id): bool {
    (i, u) in t.signatures && t.signatures[(i, u)]
  }

  ghost function SignTx(t: Tables, env: Env, actor: Actor, i: Id, key: Option<string>): Result<(Tables, Response)> {
    if SignaturesFlag !in env.flags then Err(FeatureDisabled) else
    :- Require(MaySign in actor.may, Forbidden);
    var previous :- Lookup(t, actor.user, key, KSign, OnProposal(i));
    if previous.Some? then Ok((t, previous.value))
    else
      var p :- OpenCollection(t, env.now, i);
      :- Require(p.collectionSnapshot.Some?, Internal);
      :- Require(actor.ParticipatesIn(p.jurisdiction)
                 && InSnapshot(t, p.collectionSnapshot.value, actor.user), Forbidden);
      :- Require(!IsActive(t, i, actor.user), Conflict(AlreadySigned));
      var t1 :- Consume(t, env.now, actor.session, SignProposal, i);
      var t2 := t1.(signatures := t1.signatures[(i, actor.user) := true]);
      var (t3, count) :- AdjustCount(t2, i, p, true);
      :- Require(p.target.Some?, Internal);
      var t4 := Log(t3, SignatureAdded(i, count, p.target.value));
      var (t5, status) :- if count >= p.target.value then CloseCollection(t4, env, i, p.(count := count))
                          else Ok((t4, p.status));
      var response := SignatureState(status, count, p.target.value, true);
      Ok((Store(t5, actor.user, key, KSign, OnProposal(i), response), response))
  }

  function UnsignTx(t: Tables, env: Env, actor: Actor, i: Id, key: Option<string>): Result<(Tables, Response)> {
    if SignaturesFlag !in env.flags then Err(FeatureDisabled) else
    :- Require(MaySign in actor.may, Forbidden);
    var previous :- Lookup(t, actor.user, key, KUnsign, OnProposal(i));
    if previous.Some? then Ok((t, previous.value))
    else
      var p :- OpenCollection(t, env.now, i);
      :- Require(IsActive(t, i, actor.user), Conflict(NotSigned));
      var t1 := t.(signatures := t.signatures[(i, actor.user) := false]);
      var (t2, count) :- AdjustCount(t1, i, p, false);
      :- Require(p.target.Some?, Internal);
      var response := SignatureState(p.status, count, p.target.value, false);
      Ok((Store(Log(t2, SignatureWithdrawn(i, count, p.target.value)), actor.user, key, KUnsign, OnProposal(i),
                response),
          response))
  }

  // ------------------------------------------------------------ ballots

  predicate IsSetupVote(kind: Kind) { kind.SetupChange? || kind.InitialSetup? }

  function VoteAction(kind: Kind): Critical { if IsSetupVote(kind) then VoteSetup else VoteProposal }

  function VotePermission(kind: Kind): Permission { if IsSetupVote(kind) then MayVoteSetup else MayVote }

  predicate IsVoteOpen(p: Proposal, now: int) {
    p.status.InVoting? && p.voteEndsAt.Some? && now < p.voteEndsAt.value
  }

  /** INSERT under UNIQUE (proposal_id, user_id). */
  function InsertBallot(t: Tables, b: Ballot): Result<Tables> {
    if HasVoted(t.ballots, b.proposal, b.user) then Err(Conflict(AlreadyVoted))
    else Ok(t.(ballots := t.ballots + [b]))
  }

  ghost function CastTx(t: Tables, env: Env, actor: Actor, i: Id, choice: Choice, consent: bool,
                        key: Option<string>): Result<(Tables, Response)>
  {
    if !(ProposalsFlag in env.flags && VotingFlag in env.flags) then Err(FeatureDisabled) else
    :- Require(consent, Validation);
    var previous :- Lookup(t, actor.user, key, KCast, OnChoice(i, choice));
    if previous.Some? then Ok((t, previous.value))
    else
      var p :- Load(t, i);
      :- Require(!p.status.Draft?, NotFound);
      :- Require(VotePermission(p.kind) in actor.may, Forbidden);
      :- Require(IsVoteOpen(p, env.now), PhaseClosed);
      :- Require(p.voteSnapshot.Some?, Internal);
      :- Require(InSnapshot(t, p.voteSnapshot.value, actor.user), Forbidden);
      :- Require(!HasVoted(t.ballots, i, actor.user), Conflict(AlreadyVoted));
      var t1 :- Consume(t, env.now, actor.session, VoteAction(p.kind), i);
      var t2 :- InsertBallot(t1, Ballot(i, actor.user, p.voteSnapshot.value, choice));
      var votes := StoredCount(t2.ballotCounts, i) + 1;
      var t3 := Log(t2.(ballotCounts := t2.ballotCounts[i := votes]), VoteCast(i, votes));
      var response := CastConfirmation(i, choice, env.now);
      Ok((Store(t3, actor.user, key, KCast, OnChoice(i, choice), response), response))
  }
}
