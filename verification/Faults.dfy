/** The errors that stored data could only cause by being inconsistent are unreachable,
    and the rows written at publication and at the opening of a vote are as promised. */
module Faults {
  import opened Prelude
  import opened Electoral
  import opened Territory
  import opened Tables
  import opened Transactions
  import opened Integrity
  import opened Preservation
  import opened Closing
  import opened Deadlines
  import opened Ledger

  // ------------------------------------------------------------ rows as promised

  /** The least count of at least one that reaches a share of an electorate. */
  ghost predicate LeastShare(target: nat, bp: nat, electorate: nat) {
    forall m: nat :: m >= target <==> m >= 1 && m * 10_000 >= bp * electorate
  }

  /** A published row, its snapshot, its event and the answer: setup and electorate are
      those of the instant, the target is the least count that reaches the share the setup
      asks at the level of the jurisdiction. */
  ghost predicate Promised(t: Tables, u: Tables, env: Env, i: Id, response: Response) {
    && i in t.proposals && i in u.proposals
    && var p := u.proposals[i];
       && p.jurisdiction == t.proposals[i].jurisdiction && p.jurisdiction in t.catalog
       && EffectiveSetup(t, p.jurisdiction).Some? && p.setupVersion == EffectiveSetup(t, p.jurisdiction)
       && p.target.Some? && p.collectEndsAt.Some? && t.next !in t.snapshots && Eligible(env, p.jurisdiction) != {}
       && p == t.proposals[i].(
            status := Collecting, publishedAt := Some(env.now), count := 0,
            setupVersion := p.setupVersion, collectionSnapshot := Some(t.next), target := p.target,
            collectEndsAt := p.collectEndsAt, quotaYear := if p.kind.SetupChange? then None else Some(env.year))
       && u.snapshots == t.snapshots[t.next := Snapshot(i, CollectionPhase, p.jurisdiction, p.setupVersion.value,
                                                        |Eligible(env, p.jurisdiction)|, Eligible(env, p.jurisdiction))]
       && u.trail == t.trail + [ProposalPublished(i, p.target.value)]
       && response == Published(i, p.target.value, p.collectEndsAt.value)
       && var params := t.setups[p.setupVersion.value].params;
          match t.catalog[p.jurisdiction].level
          case National => LeastShare(p.target.value, params.signatureBpNational, |Eligible(env, p.jurisdiction)|)
          case State => LeastShare(p.target.value, params.signatureBpState, |Eligible(env, p.jurisdiction)|)
          case Municipal => LeastShare(p.target.value, params.signatureBpMunicipal, |Eligible(env, p.jurisdiction)|)
  }

  lemma RowIsPromised(t: Tables, u: Tables, env: Env, i: Id, response: Response)
    requires i in t.proposals && EffectiveSetup(t, t.proposals[i].jurisdiction).Some?
    requires PublishedAs(t, u, env, i, EffectiveSetup(t, t.proposals[i].jurisdiction).value)
    requires i in u.proposals && u.proposals[i].target.Some? && u.proposals[i].collectEndsAt.Some?
    requires response == Published(i, u.proposals[i].target.value, u.proposals[i].collectEndsAt.value)
    requires t.proposals[i].count == 0 && SetupsOk(t.setups) && IdsOk(t) && Sane(env)
    requires CitizenCreatable(t.proposals[i].kind)
    ensures Promised(t, u, env, i, response)
  {
    hide SetupsOk, Sane, PublishedAs, Covered, IdsOk, LeastShare;
    var setup := EffectiveSetup(t, t.proposals[i].jurisdiction).value;
    PublishedRowIs(t, u, env, i, setup);
    SaneSize(env, t.proposals[i].jurisdiction);
    ShareInRange(t.setups, setup, t.catalog[t.proposals[i].jurisdiction].level);
    ShareByLevel(t.setups[setup].params, t.catalog[t.proposals[i].jurisdiction].level,
                 |Eligible(env, t.proposals[i].jurisdiction)|);
    hide MinCount, SignatureBp, Max1, Eligible;
  }

  lemma ShareByLevel(params: SetupParams, level: Level, n: nat)
    requires SignatureBp(params, level) <= BP_FULL && n < U64
    ensures var target := Max1(MinCount(SignatureBp(params, level), n));
            match level
            case National => LeastShare(target, params.signatureBpNational, n)
            case State => LeastShare(target, params.signatureBpState, n)
            case Municipal => LeastShare(target, params.signatureBpMunicipal, n)
  {
    TargetIsLeast(SignatureBp(params, level), n);
    hide MinCount, Max1;
  }

  lemma DraftCount(t: Tables, i: Id)
    requires i in t.proposals && t.proposals[i].status.Draft? && Valid(t)
    ensures t.proposals[i].count == 0 && SetupsOk(t.setups) && IdsOk(t)
  {
    RowIsOk(t, i);
    hide SetupsOk, CollectionOk, VoteOk, IdsOk;
  }

  lemma PublishedAsPromised(t: Tables, env: Env, actor: Actor, i: Id, key: Option<string>)
    requires PublishTx(t, env, actor, i, key).Ok? && PublishTx(t, env, actor, i, key).value.0 != t
    requires Sane(env) && Valid(t)
    ensures var (u, response) := PublishTx(t, env, actor, i, key).value; Promised(t, u, env, i, response)
  {
    hide *;
    PublishDelta(t, env, actor, i, key);
    PublishPassed(t, env, actor, i, key);
    DraftCount(t, i);
    PublishAnswer(t, env, actor, i, key);
    var (u, response) := PublishTx(t, env, actor, i, key).value;
    RowIsPromised(t, u, env, i, response);
  }

  lemma SaneSize(env: Env, j: Id)
    requires Sane(env)
    ensures |Eligible(env, j)| < U64
  {
  }

  lemma ShareInRange(setups: map<Id, Setup>, v: Id, level: Level)
    requires SetupsOk(setups) && v in setups
    ensures 1 <= SignatureBp(setups[v].params, level) <= BP_FULL
  {
    VersionAt(setups, v);
    hide SetupsOk, Versions;
  }

  lemma TargetIsLeast(bp: nat, n: nat)
    requires bp <= BP_FULL && n < U64
    ensures forall m: nat :: m >= Max1(MinCount(bp, n)) <==> m >= 1 && m * 10_000 >= bp * n
  {
    var count, product := MinCount(bp, n), bp * n;
    MinCountExact(bp, n);
    assert forall m: nat :: m >= count <==> m * 10_000 >= product;
    hide MinCount;
  }

  lemma PublishedRowIs(t: Tables, u: Tables, env: Env, i: Id, setup: Id)
    requires PublishedAs(t, u, env, i, setup) && IdsOk(t)
    ensures i in t.proposals && i in u.proposals && t.proposals[i].jurisdiction in t.catalog && setup in t.setups
    ensures t.next !in t.snapshots && Eligible(env, t.proposals[i].jurisdiction) != {}
    ensures var p := u.proposals[i];
            var members := Eligible(env, p.jurisdiction);
            && p == t.proposals[i].(status := Collecting, publishedAt := Some(env.now), setupVersion := Some(setup),
                                    collectionSnapshot := Some(t.next), target := p.target,
                                    quotaYear := if p.kind.SetupChange? then None else Some(env.year),
                                    collectEndsAt := p.collectEndsAt)
            && u.snapshots == t.snapshots[t.next := Snapshot(i, CollectionPhase, p.jurisdiction, setup, |members|,
                                                             members)]
            && p.target == Some(Max1(MinCount(SignatureBp(t.setups[setup].params, t.catalog[p.jurisdiction].level),
                                              |members|)))
            && u.trail == t.trail + [ProposalPublished(i, p.target.value)]
  {
    hide Spent, MinCount, SignatureBp, Max1, Eligible;
  }

  lemma PublishAnswer(t: Tables, env: Env, actor: Actor, i: Id, key: Option<string>)
    requires PublishTx(t, env, actor, i, key).Ok? && PublishTx(t, env, actor, i, key).value.0 != t
    ensures var (u, response) := PublishTx(t, env, actor, i, key).value;
            && i in u.proposals && u.proposals[i].target.Some? && u.proposals[i].collectEndsAt.Some?
            && response == Published(i, u.proposals[i].target.value, u.proposals[i].collectEndsAt.value)
  {
    hide Consume, TakeSnapshot, QuotaUsed, MinCount, SignatureBp, Rules, RowCheck, Lookup;
  }

  /** A vote opens under the setup in force then, for the accounts eligible then; the row
      changes in nothing else. */
  lemma OpensUnderCurrentSetup(m: Tables, env: Env, i: Id)
    requires i in m.proposals && OpenVoting(m, env, i, m.proposals[i]).Ok?
    ensures var u := OpenVoting(m, env, i, m.proposals[i]).value;
            && i in u.proposals
            && var q, members := u.proposals[i], Eligible(env, m.proposals[i].jurisdiction);
               && EffectiveSetup(m, q.jurisdiction).Some? && q.voteSetupVersion == EffectiveSetup(m, q.jurisdiction)
               && q.voteSnapshot == Some(m.next) && members != {}
               && q == m.proposals[i].(status := InVoting, voteSetupVersion := q.voteSetupVersion,
                                       voteSnapshot := Some(m.next), voteEndsAt := q.voteEndsAt)
               && u.snapshots == m.snapshots[m.next := Snapshot(i, VotingPhase, q.jurisdiction,
                                                                q.voteSetupVersion.value,
                                                                |members|, members)]
  {
    OpenVotingDelta(m, env, i, m.proposals[i]);
    hide OpenVoting, EffectiveSetup, Rules, Eligible;
  }

  // ------------------------------------------------------------ unreachable errors

  lemma OpenVotingFaults(m: Tables, env: Env, i: Id, p: Proposal)
    requires i in m.proposals && m.proposals[i] == p && !p.status.Archived? && RowCheck(p) && !p.status.Draft?
    requires CanTransition(p.kind, p.status, InVoting)
    requires forall s :: s in m.snapshots ==> !(m.snapshots[s].proposal == i && m.snapshots[s].phase.VotingPhase?)
    ensures var r := OpenVoting(m, env, i, p); r.Err? ==> r.error.Conflict?
  {
    hide Covered, Rules;
  }

  ghost predicate Closable(m: Tables, i: Id, p: Proposal) {
    && i in m.proposals && m.proposals[i] == p && p.status.Collecting? && RowCheck(p) && !p.kind.InitialSetup?
    && p.setupVersion.Some? && p.setupVersion.value in m.setups
    && (forall s :: s in m.snapshots ==> !(m.snapshots[s].proposal == i && m.snapshots[s].phase.VotingPhase?))
  }

  lemma CloseCollectionFaults(m: Tables, env: Env, i: Id, p: Proposal)
    requires Closable(m, i, p)
    ensures var r := CloseCollection(m, env, i, p); r.Err? ==> r.error.Conflict?
  {
    if p.kind.UrgentLaw? {
      OpenVotingFaults(m, env, i, p);
    }
    hide OpenVoting;
  }

  ghost predicate Signable(t: Tables, i: Id) {
    && i in t.proposals
    && (t.proposals[i].status.Collecting? ==>
          && RowCheck(t.proposals[i]) && t.proposals[i].target.Some? && t.proposals[i].collectionSnapshot.Some?
          && !t.proposals[i].kind.InitialSetup? && t.proposals[i].setupVersion.Some?
          && t.proposals[i].setupVersion.value in t.setups
          && (forall s :: s in t.snapshots ==> !(t.snapshots[s].proposal == i && t.snapshots[s].phase.VotingPhase?)))
  }

  lemma ValidIsSignable(t: Tables, i: Id)
    requires i in t.proposals && Valid(t)
    ensures Signable(t, i)
  {
    assert SnapshotsOk(t);
    RowIsOk(t, i);
    hide Valid, SnapshotsOk, VoteOk;
    if t.proposals[i].status.Collecting? {
      NoVotingSnapshot(t, i);
    }
  }

  /** The tables after a signature row and its counter are written. */
  lemma SignFaultsFrom(t: Tables, env: Env, actor: Actor, i: Id, key: Option<string>)
    requires i in t.proposals ==> Signable(t, i)
    ensures SignTx(t, env, actor, i, key) != Err(Internal)
  {
    if OpenCollection(t, env.now, i).Ok? && Consume(t, env.now, actor.session, SignProposal, i).Ok? {
      var p := t.proposals[i];
      ConsumeTakes(t, env.now, actor.session, SignProposal, i);
      var t1 := Consume(t, env.now, actor.session, SignProposal, i).value;
      var t2 := t1.(signatures := t1.signatures[(i, actor.user) := true]);
      AdjustWorks(t2, i, p, true);
      var (t3, count) := AdjustCount(t2, i, p, true).value;
      var t4 := Log(t3, SignatureAdded(i, count, p.target.value));
      assert Closable(t4, i, p.(count := count));
      CloseCollectionFaults(t4, env, i, p.(count := count));
    }
    hide Consume, AdjustCount, CloseCollection, Store, InSnapshot, IsActive, Closable, Signable;
  }

  lemma AdjustWorks(t: Tables, i: Id, p: Proposal, added: bool)
    requires i in t.proposals && t.proposals[i] == p && p.status.Collecting? && RowCheck(p) && (added || p.count > 0)
    ensures AdjustCount(t, i, p, added).Ok?
    ensures var (u, count) := AdjustCount(t, i, p, added).value;
            count == (if added then p.count + 1 else p.count - 1)
            && u == t.(proposals := t.proposals[i := p.(count := count)])
  {
  }

  /** Signing never fails on inconsistent data. */
  lemma SignHasNoFaults(t: Tables, env: Env, actor: Actor, i: Id, key: Option<string>)
    requires Valid(t)
    ensures SignTx(t, env, actor, i, key) != Err(Internal)
  {
    hide Valid, SignTx, Signable;
    if i in t.proposals {
      ValidIsSignable(t, i);
    }
    SignFaultsFrom(t, env, actor, i, key);
  }

  lemma ActiveIsCounted(t: Tables, i: Id, user: Id)
    requires i in t.proposals && ProposalOk(t, i) && IsActive(t, i, user)
    ensures t.proposals[i].count > 0
  {
    hide VoteOk, Shape;
    assert (i, user) in t.signatures && (i, user).0 == i && t.signatures[(i, user)];
    assert user in Signers(t.signatures, i);
  }

  lemma UnsignHasNoFaults(t: Tables, env: Env, actor: Actor, i: Id, key: Option<string>)
    requires Valid(t)
    ensures UnsignTx(t, env, actor, i, key) != Err(Internal)
  {
    hide Valid, ProposalOk;
    if i in t.proposals {
      ValidIsSignable(t, i);
      RowIsOk(t, i);
      if IsActive(t, i, actor.user) {
        ActiveIsCounted(t, i, actor.user);
        if t.proposals[i].status.Collecting? {
          AdjustWorks(t.(signatures := t.signatures[(i, actor.user) := false]), i, t.proposals[i], false);
        }
      }
    }
    hide AdjustCount, Store;
  }

  lemma CastHasNoFaults(t: Tables, env: Env, actor: Actor, i: Id, choice: Choice, consent: bool, key: Option<string>)
    requires Valid(t)
    ensures CastTx(t, env, actor, i, choice, consent, key) != Err(Internal)
  {
    hide Valid, ProposalOk, SetupRef, SnapshotRef, Unnumbered;
    if i in t.proposals && t.proposals[i].status.InVoting? {
      OpenVote(t, i);
    }
    hide Store, InSnapshot;
  }

  lemma NoCollectionSnapshot(t: Tables, i: Id)
    requires SnapshotsOk(t) && i in t.proposals && t.proposals[i].collectionSnapshot.None?
    ensures forall s :: s in t.snapshots ==> !(t.snapshots[s].proposal == i && t.snapshots[s].phase.CollectionPhase?)
  {
    assert forall s :: s in t.snapshots ==> SnapshotOk(t, s);
  }

  ghost predicate Publishable(t: Tables, i: Id) {
    && i in t.proposals
    && (t.proposals[i].status.Draft? ==>
          && RowCheck(t.proposals[i])
          && (forall s :: s in t.snapshots ==>
                !(t.snapshots[s].proposal == i && t.snapshots[s].phase.CollectionPhase?)))
  }

  lemma ValidIsPublishable(t: Tables, i: Id)
    requires i in t.proposals && Valid(t)
    ensures Publishable(t, i)
  {
    assert SnapshotsOk(t);
    RowIsOk(t, i);
    hide Valid, SnapshotsOk, VoteOk, CollectionOk;
    if t.proposals[i].status.Draft? {
      NoCollectionSnapshot(t, i);
    }
  }

  lemma PublishFaultsFrom(t: Tables, env: Env, actor: Actor, i: Id, key: Option<string>)
    requires i in t.proposals ==> Publishable(t, i)
    ensures PublishTx(t, env, actor, i, key) != Err(Internal)
  {
    if Consume(t, env.now, actor.session, CreateProposal, i).Ok? {
      ConsumeTakes(t, env.now, actor.session, CreateProposal, i);
    }
    hide Consume, Store, Lookup, QuotaUsed, MinCount, SignatureBp, Covered, Taken;
  }

  lemma PublishHasNoFaults(t: Tables, env: Env, actor: Actor, i: Id, key: Option<string>)
    requires Valid(t)
    ensures PublishTx(t, env, actor, i, key) != Err(Internal)
  {
    hide Valid, PublishTx, Publishable;
    if i in t.proposals {
      ValidIsPublishable(t, i);
    }
    PublishFaultsFrom(t, env, actor, i, key);
  }

  lemma StartHasNoFaults(t: Tables, env: Env, actor: Actor, params: SetupParams)
    requires Valid(t)
    ensures StartTx(t, env, actor, params) != Err(Internal)
  {
    hide Valid, StartTx;
    FreshProposal(t);
    StartFaultsFrom(t, env, actor, params);
  }

  lemma StartFaultsFrom(t: Tables, env: Env, actor: Actor, params: SetupParams)
    requires forall s :: s in t.snapshots ==> t.snapshots[s].proposal != t.next + 1
    ensures StartTx(t, env, actor, params) != Err(Internal)
  {
    hide ValidParams, Covered, Rules, PlebisciteOpen, EffectiveSetup;
  }

  lemma FreshProposal(t: Tables)
    requires Valid(t)
    ensures forall s :: s in t.snapshots ==> t.snapshots[s].proposal != t.next + 1
  {
    assert SnapshotsOk(t) && IdsOk(t);
    hide Valid;
    assert forall s :: s in t.snapshots ==> SnapshotOk(t, s);
  }
}
