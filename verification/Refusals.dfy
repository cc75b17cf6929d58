/** Every refusal of a citizen's request names a cause that is there, on data that satisfies
    the invariant; with the conditions of acceptance this fixes what each request answers. */
module Refusals {
  import opened Prelude
  import opened Electoral
  import opened Territory
  import opened Tables
  import opened Transactions
  import opened Integrity
  import opened Preservation
  import opened Decisions
  import opened Closing
  import opened Deadlines
  import opened Steps
  import opened Ledger
  import opened Runs
  import opened Faults
  import opened Theorems
  import opened Acts
  import opened Effects

  /** The key was used by this account for another act or with other contents. */
  predicate KeyTaken(t: Tables, user: Id, key: Option<string>, action: KeyAction, payload: Payload) {
    && key.Some? && (user, key.value) in t.keys
    && (t.keys[(user, key.value)].action != action || t.keys[(user, key.value)].payload != payload)
  }

  // ------------------------------------------------------------ signing

  ghost predicate SignCause(t: Tables, env: Env, actor: Actor, i: Id, key: Option<string>, e: Error) {
    match e
    case FeatureDisabled => SignaturesFlag !in env.flags
    case Forbidden =>
      || MaySign !in actor.may
      || (i in t.proposals && (!LivesIn(actor, t.proposals[i].jurisdiction)
                               || actor.user !in Electorate(t, t.proposals[i].collectionSnapshot)))
    case NotFound => i !in t.proposals || t.proposals[i].status.Draft?
    case PhaseClosed =>
      i in t.proposals && !(t.proposals[i].status.Collecting? && Ahead(t.proposals[i].collectEndsAt, env.now))
    case ReauthRequired => !HasGrant(t, env.now, actor.session, SignProposal, i)
    case Conflict(AlreadySigned) => actor.user in Signers(t.signatures, i)
    case Conflict(KeyReused) => KeyTaken(t, actor.user, key, KSign, OnProposal(i))
    case Conflict(EmptyElectorate) =>
      i in t.proposals && LastOfUrgent(t, i) && Eligible(env, t.proposals[i].jurisdiction) == {}
    case _ => false
  }

  lemma SignRefusedFrom(t: Tables, env: Env, actor: Actor, i: Id, key: Option<string>)
    requires i in t.proposals && t.proposals[i].status.Collecting? ==>
               && Signable(t, i) && t.proposals[i].target.Some? && t.proposals[i].count < t.proposals[i].target.value
               && Covered(t, t.proposals[i].jurisdiction)
    requires SignTx(t, env, actor, i, key).Err?
    ensures SignCause(t, env, actor, i, key, SignTx(t, env, actor, i, key).error)
  {
    hide Consume, AdjustCount, CloseCollection, Store, IsActive, Signers, HasGrant, Covered;
    GrantSuffices(t, env.now, actor.session, SignProposal, i);
    ActiveSigns(t, i, actor.user);
    if i in t.proposals && t.proposals[i].status.Collecting? && HasGrant(t, env.now, actor.session, SignProposal, i) {
      SignTail(t, env, actor, i);
    }
  }

  lemma SignRefused(t: Tables, env: Env, actor: Actor, i: Id, key: Option<string>)
    requires SignTx(t, env, actor, i, key).Err? && Valid(t)
    ensures SignCause(t, env, actor, i, key, SignTx(t, env, actor, i, key).error)
  {
    hide *;
    if i in t.proposals && t.proposals[i].status.Collecting? {
      ValidIsSignable(t, i);
      CollectingShape(t, i);
      CollectingLaw(t, i);
      LawsHaveSetups(t, i);
    }
    SignRefusedFrom(t, env, actor, i, key);
  }

  ghost predicate UnsignCause(t: Tables, env: Env, actor: Actor, i: Id, key: Option<string>, e: Error) {
    match e
    case FeatureDisabled => SignaturesFlag !in env.flags
    case Forbidden => MaySign !in actor.may
    case NotFound => i !in t.proposals || t.proposals[i].status.Draft?
    case PhaseClosed =>
      i in t.proposals && !(t.proposals[i].status.Collecting? && Ahead(t.proposals[i].collectEndsAt, env.now))
    case Conflict(NotSigned) => actor.user !in Signers(t.signatures, i)
    case Conflict(KeyReused) => KeyTaken(t, actor.user, key, KUnsign, OnProposal(i))
    case _ => false
  }

  lemma UnsignRefused(t: Tables, env: Env, actor: Actor, i: Id, key: Option<string>)
    requires UnsignTx(t, env, actor, i, key).Err? && Valid(t)
    ensures UnsignCause(t, env, actor, i, key, UnsignTx(t, env, actor, i, key).error)
  {
    hide Valid, ProposalOk;
    ActiveSigns(t, i, actor.user);
    if i in t.proposals && t.proposals[i].status.Collecting? && IsActive(t, i, actor.user) {
      ValidIsSignable(t, i);
      RowIsOk(t, i);
      ActiveIsCounted(t, i, actor.user);
      AdjustWorks(t.(signatures := t.signatures[(i, actor.user) := false]), i, t.proposals[i], false);
    }
    hide AdjustCount, Store, IsActive, Signers;
  }

  // ------------------------------------------------------------ ballots

  ghost predicate CastCause(t: Tables, env: Env, actor: Actor, i: Id, choice: Choice, consent: bool,
                            key: Option<string>, e: Error)
  {
    match e
    case FeatureDisabled => ProposalsFlag !in env.flags || VotingFlag !in env.flags
    case Validation => !consent
    case Forbidden =>
      && i in t.proposals
      && (|| actor.user !in Electorate(t, t.proposals[i].voteSnapshot)
          || (if t.proposals[i].kind.NormalLaw? || t.proposals[i].kind.UrgentLaw? then MayVote !in actor.may
              else MayVoteSetup !in actor.may))
    case NotFound => i !in t.proposals || t.proposals[i].status.Draft?
    case PhaseClosed =>
      i in t.proposals && !(t.proposals[i].status.InVoting? && Ahead(t.proposals[i].voteEndsAt, env.now))
    case ReauthRequired =>
      && i in t.proposals
      && !HasGrant(t, env.now, actor.session,
                   if t.proposals[i].kind.NormalLaw? || t.proposals[i].kind.UrgentLaw? then VoteProposal else VoteSetup,
                   i)
    case Conflict(AlreadyVoted) => actor.user in Voters(t.ballots, i)
    case Conflict(KeyReused) => KeyTaken(t, actor.user, key, KCast, OnChoice(i, choice))
    case _ => false
  }

  lemma CastRefused(t: Tables, env: Env, actor: Actor, i: Id, choice: Choice, consent: bool, key: Option<string>)
    requires CastTx(t, env, actor, i, choice, consent, key).Err? && Valid(t)
    ensures CastCause(t, env, actor, i, choice, consent, key, CastTx(t, env, actor, i, choice, consent, key).error)
  {
    hide Valid, SetupRef, SnapshotRef, Unnumbered, RowCheck, Store, Consume, Taken, HasGrant, Voters;
    if i in t.proposals {
      GrantSuffices(t, env.now, actor.session, VoteAction(t.proposals[i].kind), i);
      if t.proposals[i].status.InVoting? {
        OpenVote(t, i);
      }
      if HasGrant(t, env.now, actor.session, VoteAction(t.proposals[i].kind), i) {
        ConsumeTakes(t, env.now, actor.session, VoteAction(t.proposals[i].kind), i);
      }
    }
  }

  // ------------------------------------------------------------ publication

  ghost predicate PublishCause(t: Tables, env: Env, actor: Actor, i: Id, key: Option<string>, e: Error) {
    match e
    case FeatureDisabled => ProposalsFlag !in env.flags
    case Forbidden => MayCreate !in actor.may || (i in t.proposals && !LivesIn(actor, t.proposals[i].jurisdiction))
    case NotFound =>
      i !in t.proposals || t.proposals[i].author != actor.user || t.proposals[i].jurisdiction !in t.catalog
    case PhaseClosed => i in t.proposals && !t.proposals[i].status.Draft?
    case ReauthRequired => !HasGrant(t, env.now, actor.session, CreateProposal, i)
    case Conflict(Quota) => i in t.proposals && !WithinQuota(t, env.year, t.proposals[i])
    case Conflict(EmptyElectorate) => i in t.proposals && Eligible(env, t.proposals[i].jurisdiction) == {}
    case Conflict(KeyReused) => KeyTaken(t, actor.user, key, KPublish, OnProposal(i))
    case _ => false
  }

  lemma PublishRefusedFrom(t: Tables, env: Env, actor: Actor, i: Id, key: Option<string>)
    requires i in t.proposals && t.proposals[i].status.Draft? ==>
               && Publishable(t, i) && CitizenCreatable(t.proposals[i].kind)
               && EffectiveSetup(t, t.proposals[i].jurisdiction).Some?
    requires PublishTx(t, env, actor, i, key).Err?
    ensures PublishCause(t, env, actor, i, key, PublishTx(t, env, actor, i, key).error)
  {
    hide Consume, Store, QuotaUsed, MinCount, SignatureBp, EffectiveSetup, HasGrant, TakeSnapshot, Rules, Eligible,
         WithinQuota;
    GrantSuffices(t, env.now, actor.session, CreateProposal, i);
    if i in t.proposals && t.proposals[i].status.Draft? {
      var p := t.proposals[i];
      var setup := EffectiveSetup(t, p.jurisdiction).value;
      LawsAreCollected(t.setups[setup].params, p.kind);
      QuotaIs(t, env.year, p);
      if HasGrant(t, env.now, actor.session, CreateProposal, i) {
        PublishTail(t, env, actor, i, setup);
      }
    }
  }

  lemma PublishRefused(t: Tables, env: Env, actor: Actor, i: Id, key: Option<string>)
    requires PublishTx(t, env, actor, i, key).Err? && Valid(t)
    ensures PublishCause(t, env, actor, i, key, PublishTx(t, env, actor, i, key).error)
  {
    hide *;
    if i in t.proposals && t.proposals[i].status.Draft? {
      ValidIsPublishable(t, i);
      RowIsOk(t, i);
      OwnKind(t, i);
      DraftIsLaw(t.proposals[i].kind);
      LawsHaveSetups(t, i);
    }
    PublishRefusedFrom(t, env, actor, i, key);
  }

  // ------------------------------------------------------------ drafts, endings, the plebiscite

  ghost predicate SaveCause(t: Tables, env: Env, actor: Actor, id: Option<Id>, input: DraftInput, e: Error) {
    match e
    case FeatureDisabled => ProposalsFlag !in env.flags
    case Forbidden => MayCreate !in actor.may || input.kind.InitialSetup?
    case Validation => input.kind.SetupChange? && (input.package.None? || !ValidParams(input.package.value))
    case NotFound => id.Some? && (id.value !in t.proposals || t.proposals[id.value].author != actor.user)
    case PhaseClosed => id.Some? && id.value in t.proposals && !t.proposals[id.value].status.Draft?
    case Conflict(NoSetup) =>
      EffectiveSetup(t, match input.level
                        case National => actor.country
                        case State => actor.state
                        case Municipal => actor.municipality).None?
    case _ => false
  }

  lemma SaveRefused(t: Tables, env: Env, actor: Actor, id: Option<Id>, input: DraftInput)
    requires SaveDraftTx(t, env, actor, id, input).Err? && Valid(t)
    ensures SaveCause(t, env, actor, id, input, SaveDraftTx(t, env, actor, id, input).error)
  {
    hide Valid, ValidParams, EffectiveSetup, Rejection, SaveCause;
    KnownIds(t);
    if id.Some? && id.value in t.proposals {
      RowsChecked(t, id.value);
    }
    SaveRefusedFrom(t, env, actor, id, input);
  }

  lemma SaveRefusedFrom(t: Tables, env: Env, actor: Actor, id: Option<Id>, input: DraftInput)
    requires SaveDraftTx(t, env, actor, id, input).Err? && t.next !in t.proposals
    requires id.Some? && id.value in t.proposals ==> RowCheck(t.proposals[id.value])
    ensures SaveCause(t, env, actor, id, input, SaveDraftTx(t, env, actor, id, input).error)
  {
    hide ValidParams, EffectiveSetup, OwnDraft, WriteDraft, RowCheck;
    var j := AuthorJurisdiction(actor, input.level);
    DraftOwned(t, actor, id, input.kind, j);
    if DraftPackage(input).Ok? && OwnDraft(t, actor, id, input.kind, j).Ok? {
      var (t1, i) := OwnDraft(t, actor, id, input.kind, j).value;
      WriteWorks(t1, i, input.kind, j, DraftPackage(input).value);
    }
  }

  ghost predicate EndCause(t: Tables, actor: Actor, i: Id, mine: bool, e: Error) {
    match e
    case NotFound => i !in t.proposals || (mine && t.proposals[i].author != actor.user && t.proposals[i].status.Draft?)
    case Forbidden =>
      if mine then i in t.proposals && t.proposals[i].author != actor.user && !t.proposals[i].status.Draft?
      else MayArchive !in actor.may
    case PhaseClosed =>
      && i in t.proposals
      && if mine then !t.proposals[i].status.Draft? && !t.proposals[i].status.Collecting?
         else t.proposals[i].status !in {Approved, Rejected, QuorumNotReached, Expired}
    case Internal => mine && i in t.proposals && t.proposals[i].status.Draft?
    case _ => false
  }

  /** Withdrawing and archiving: the internal error is that of the author's draft. */
  lemma EndRefused(t: Tables, env: Env, actor: Actor, i: Id)
    requires Valid(t)
    ensures WithdrawTx(t, env, actor, i).Err? ==> EndCause(t, actor, i, true, WithdrawTx(t, env, actor, i).error)
    ensures ArchiveTx(t, env, actor, i).Err? ==> EndCause(t, actor, i, false, ArchiveTx(t, env, actor, i).error)
  {
    hide Valid, Rejection;
    if i in t.proposals {
      RowsChecked(t, i);
      RowIsOk(t, i);
      OwnKind(t, i);
    }
    hide ProposalOk;
  }

  ghost predicate StartCause(t: Tables, env: Env, actor: Actor, params: SetupParams, e: Error) {
    match e
    case Forbidden => MayStartSetup !in actor.may
    case Validation => !ValidParams(params)
    case Conflict(SetupExists) => EffectiveSetup(t, actor.country).Some?
    case Conflict(SetupInProgress) =>
      exists i :: i in t.proposals && t.proposals[i].kind.InitialSetup? && t.proposals[i].status.InVoting?
    case Conflict(EmptyElectorate) => Eligible(env, actor.country) == {}
    case _ => false
  }

  lemma StartRefused(t: Tables, env: Env, actor: Actor, params: SetupParams)
    requires StartTx(t, env, actor, params).Err? && Valid(t)
    ensures StartCause(t, env, actor, params, StartTx(t, env, actor, params).error)
  {
    hide Valid, StartTx, StartCause;
    FreshProposal(t);
    StartRefusedFrom(t, env, actor, params);
  }

  lemma SnapshotOfNew(t: Tables, env: Env, i: Id, j: Id, setup: Id)
    requires forall s :: s in t.snapshots ==> t.snapshots[s].proposal != i
    ensures var r := TakeSnapshot(t, env, i, VotingPhase, j, setup);
            && (r.Err? ==> r == Err(Conflict(EmptyElectorate)) && Eligible(env, j) == {})
            && (r.Ok? ==> r.value.0.proposals == t.proposals)
  {
  }

  lemma StartRefusedFrom(t: Tables, env: Env, actor: Actor, params: SetupParams)
    requires forall s :: s in t.snapshots ==> t.snapshots[s].proposal != t.next + 1
    requires StartTx(t, env, actor, params).Err?
    ensures StartCause(t, env, actor, params, StartTx(t, env, actor, params).error)
  {
    hide ValidParams, EffectiveSetup, TakeSnapshot, Rules;
    if ValidParams(params) {
      var (t1, package) := InsertProposed(t, actor.country, params).value;
      var i := t1.next;
      var draft := BlankDraft(InitialSetup, actor.country, actor.user).(proposedSetup := Some(package));
      SnapshotOfNew(t1.(next := i + 1, proposals := t1.proposals[i := draft]), env, i, actor.country, package);
    }
  }
}
