/** What each act of a citizen needs and does on data that satisfies the invariant:
    exactly when it is accepted, what it adds, what undoes it, and how the ballots decide. */
module Acts {
  import opened Prelude
  import opened Electoral
  import opened Territory
  import opened Tables
  import opened Transactions
  import opened Integrity
  import opened Preservation
  import opened Decisions
  import opened Drafting
  import opened Closing
  import opened Deadlines
  import opened Steps
  import opened Ledger
  import opened Runs
  import opened Faults
  import opened Theorems

  /** No key, or one this account has not used yet. */
  predicate FreshKey(t: Tables, user: Id, key: Option<string>) {
    key.Some? ==> (user, key.value) !in t.keys
  }

  /** An unconsumed, unexpired grant of the session for this act on this resource. */
  predicate HasGrant(t: Tables, now: int, session: Id, action: Critical, resource: Id) {
    exists g ::
      && g in t.grants && t.grants[g].session == session && t.grants[g].action == action
      && t.grants[g].resource == resource && t.grants[g].consumedAt.None? && now < t.grants[g].expiresAt
  }

  /** The places of an account: its municipality, its state and its country. */
  predicate LivesIn(actor: Actor, j: Id) { j == actor.municipality || j == actor.state || j == actor.country }

  function Electorate(t: Tables, snapshot: Option<Id>): set<Id> {
    if snapshot.Some? && snapshot.value in t.snapshots then t.snapshots[snapshot.value].members else {}
  }

  lemma GrantSuffices(t: Tables, now: int, session: Id, action: Critical, resource: Id)
    ensures Consume(t, now, session, action, resource).Ok? <==> HasGrant(t, now, session, action, resource)
    ensures !HasGrant(t, now, session, action, resource) ==>
              Consume(t, now, session, action, resource) == Err(ReauthRequired)
  {
    var usable := UsableGrants(t.grants, now, session, action, resource);
    if g :| g in t.grants && Usable(t.grants[g], now, session, action, resource) {
      assert g in usable;
    }
    hide Oldest;
  }

  // ------------------------------------------------------------ ballots

  predicate MayCast(t: Tables, env: Env, actor: Actor, i: Id) {
    && ProposalsFlag in env.flags && VotingFlag in env.flags
    && i in t.proposals && t.proposals[i].status.InVoting? && Ahead(t.proposals[i].voteEndsAt, env.now)
    && actor.user in Electorate(t, t.proposals[i].voteSnapshot)
    && actor.user !in Voters(t.ballots, i)
    && match t.proposals[i].kind
       case NormalLaw | UrgentLaw => MayVote in actor.may && HasGrant(t, env.now, actor.session, VoteProposal, i)
       case SetupChange | InitialSetup => MayVoteSetup in actor.may && HasGrant(t, env.now, actor.session, VoteSetup, i)
  }

  /** A new ballot is accepted exactly from a member of the electorate who has not voted,
      while the vote is open: on a law with the permission and a grant for proposals, on a
      setup with those for setups. */
  lemma CastIff(t: Tables, env: Env, actor: Actor, i: Id, choice: Choice, key: Option<string>)
    requires FreshKey(t, actor.user, key) && Valid(t)
    ensures CastTx(t, env, actor, i, choice, true, key).Ok? <==> MayCast(t, env, actor, i)
    ensures CastTx(t, env, actor, i, choice, false, key).Err?
  {
    hide Valid, SetupRef, SnapshotRef, Unnumbered, RowCheck, Store, Consume, Taken, HasGrant, Voters;
    if i in t.proposals {
      GrantSuffices(t, env.now, actor.session, VoteAction(t.proposals[i].kind), i);
      if t.proposals[i].status.InVoting? {
        OpenVote(t, i);
      }
      if HasGrant(t, env.now, actor.session, VoteAction(t.proposals[i].kind), i) {
        ConsumeTakes(t, env.now, actor.session, VoteAction(t.proposals[i].kind), i);
      }
    }
  }

  /** One ballot with the given choice by the given account, and nothing else counted. */
  ghost predicate OneMoreBallot(t: Tables, u: Tables, i: Id, user: Id, choice: Choice) {
    && Voters(u.ballots, i) == Voters(t.ballots, i) + {user} && user !in Voters(t.ballots, i)
    && (forall c :: NChoice(u.ballots, i, c) == NChoice(t.ballots, i, c) + if c == choice then 1 else 0)
    && (forall j :: j != i ==> TallyOf(u.ballots, j) == TallyOf(t.ballots, j))
    && StoredCount(u.ballotCounts, i) == StoredCount(t.ballotCounts, i) + 1
    && u.proposals == t.proposals && u.signatures == t.signatures && u.results == t.results && u.setups == t.setups
  }

  lemma VotedCounts(t: Tables, u: Tables, user: Id, i: Id, choice: Choice)
    requires Voted(t, u, user, i, choice)
    ensures OneMoreBallot(t, u, i, user, choice)
  {
    var b := Ballot(i, user, t.proposals[i].voteSnapshot.value, choice);
    assert u.ballots == t.ballots + [b];
    hide Spent, InSnapshot;
    VotersExtend(t.ballots, b, i);
    BallotAppended(t.ballots, b, i);
    forall j | j != i
      ensures TallyOf(u.ballots, j) == TallyOf(t.ballots, j)
    {
      BallotAppended(t.ballots, b, j);
    }
    hide Voters, NChoice;
  }

  lemma CastWrites(t: Tables, env: Env, actor: Actor, i: Id, choice: Choice, key: Option<string>)
    requires FreshKey(t, actor.user, key) && CastTx(t, env, actor, i, choice, true, key).Ok?
    ensures var (u, response) := CastTx(t, env, actor, i, choice, true, key).value;
            |u.ballots| == |t.ballots| + 1 && response == CastConfirmation(i, choice, env.now)
  {
    ConsumeTakes(t, env.now, actor.session, VoteAction(t.proposals[i].kind), i);
    hide Consume, Taken, Voters, InSnapshot;
  }

  /** An accepted ballot adds its choice to the tally, once, and is confirmed as cast. */
  lemma CastCounts(t: Tables, env: Env, actor: Actor, i: Id, choice: Choice, key: Option<string>)
    requires FreshKey(t, actor.user, key) && MayCast(t, env, actor, i) && Valid(t)
    ensures CastTx(t, env, actor, i, choice, true, key).Ok?
    ensures var (u, response) := CastTx(t, env, actor, i, choice, true, key).value;
            OneMoreBallot(t, u, i, actor.user, choice) && response == CastConfirmation(i, choice, env.now)
  {
    CastIff(t, env, actor, i, choice, key);
    hide *;
    CastWrites(t, env, actor, i, choice, key);
    CastDelta(t, env, actor, i, choice, true, key);
    VotedCounts(t, CastTx(t, env, actor, i, choice, true, key).value.0, actor.user, i, choice);
  }

  lemma StepBallots(t: Tables, u: Tables, i: Id, now: int)
    requires Stepped(t, u, i, now)
    ensures t.ballots <= u.ballots
  {
    hide ProposalStep, TablesStep, GovernStep;
  }

  lemma {:induction false} RunBallots(t: Tables, run: seq<Action>)
    requires SaneRun(run) && Valid(t)
    ensures t.ballots <= Run(t, run).ballots
  {
    hide Valid, SaneRun, Apply, Stepped;
    if run != [] {
      var init, last := run[..|run| - 1], run[|run| - 1];
      SanePrefix(run);
      RunBallots(t, init);
      RunIsValid(t, init);
      var m := Run(t, init);
      ApplyMoves(m, last.env, last.request);
      if Apply(m, last.env, last.request) != m {
        var i :| Stepped(m, Apply(m, last.env, last.request), i, last.env.now);
        StepBallots(m, Apply(m, last.env, last.request), i, last.env.now);
      }
    }
  }

  lemma VotersGrow(bs: seq<Ballot>, cs: seq<Ballot>, i: Id)
    requires bs <= cs
    ensures Voters(bs, i) <= Voters(cs, i)
  {
    forall u | u in Voters(bs, i)
      ensures u in Voters(cs, i)
    {
      var k :| 0 <= k < |bs| && bs[k].proposal == i && bs[k].user == u;
      assert cs[k] == bs[k];
    }
  }

  /** After an account has voted no run lets it cast a second ballot, from any session,
      with any grant, for any choice. */
  lemma OneBallotForEver(t: Tables, run: seq<Action>, env: Env, actor: Actor, i: Id, choice: Choice,
                         key: Option<string>)
    requires actor.user in Voters(t.ballots, i) && SaneRun(run) && FreshKey(Run(t, run), actor.user, key) && Valid(t)
    ensures CastTx(Run(t, run), env, actor, i, choice, true, key).Err?
  {
    hide Valid, Run, SaneRun, CastTx, FreshKey;
    RunIsValid(t, run);
    RunBallots(t, run);
    VotersGrow(t.ballots, Run(t, run).ballots, i);
    CastIff(Run(t, run), env, actor, i, choice, key);
    hide Voters;
  }

  // ------------------------------------------------------------ signatures

  /** The last signature of an urgent law opens its vote at once, so it also needs
      somebody eligible at that instant. */
  predicate LastOfUrgent(t: Tables, i: Id)
    requires i in t.proposals
  {
    t.proposals[i].kind.UrgentLaw? && t.proposals[i].target == Some(t.proposals[i].count + 1)
  }

  predicate MaySignNow(t: Tables, env: Env, actor: Actor, i: Id) {
    && SignaturesFlag in env.flags && MaySign in actor.may
    && i in t.proposals && t.proposals[i].status.Collecting? && Ahead(t.proposals[i].collectEndsAt, env.now)
    && LivesIn(actor, t.proposals[i].jurisdiction)
    && actor.user in Electorate(t, t.proposals[i].collectionSnapshot)
    && actor.user !in Signers(t.signatures, i)
    && HasGrant(t, env.now, actor.session, SignProposal, i)
    && (LastOfUrgent(t, i) ==> Eligible(env, t.proposals[i].jurisdiction) != {})
  }

  /** What makes closing a collection succeed. */
  lemma ClosingIff(m: Tables, env: Env, i: Id, p: Proposal)
    requires Closable(m, i, p) && Covered(m, p.jurisdiction)
    ensures CloseCollection(m, env, i, p).Ok? <==> (p.kind.UrgentLaw? ==> Eligible(env, p.jurisdiction) != {})
    ensures CloseCollection(m, env, i, p).Err? ==> CloseCollection(m, env, i, p) == Err(Conflict(EmptyElectorate))
  {
    hide Covered;
  }

  lemma LawsHaveSetups(t: Tables, i: Id)
    requires i in t.proposals && !t.proposals[i].kind.InitialSetup? && Valid(t)
    ensures Covered(t, t.proposals[i].jurisdiction)
  {
    assert LawsCovered(t);
    hide Valid, Covered;
  }

  /** What follows the grant: the counter moves, and only the opening of a vote can fail. */
  lemma SignTail(t: Tables, env: Env, actor: Actor, i: Id)
    requires i in t.proposals && t.proposals[i].status.Collecting? && Signable(t, i) && t.proposals[i].target.Some?
    requires Covered(t, t.proposals[i].jurisdiction) && Consume(t, env.now, actor.session, SignProposal, i).Ok?
    ensures var p := t.proposals[i];
            var t1 := Consume(t, env.now, actor.session, SignProposal, i).value;
            var t2 := t1.(signatures := t1.signatures[(i, actor.user) := true]);
            && i in t2.proposals && AdjustCount(t2, i, p, true).Ok?
            && AdjustCount(t2, i, p, true).value.1 == p.count + 1
            && var t4 := Log(AdjustCount(t2, i, p, true).value.0, SignatureAdded(i, p.count + 1, p.target.value));
               && i in t4.proposals
               && var r := CloseCollection(t4, env, i, p.(count := p.count + 1));
                  && (r.Ok? <==> (p.kind.UrgentLaw? ==> Eligible(env, p.jurisdiction) != {}))
                  && (r.Err? ==> r == Err(Conflict(EmptyElectorate)))
  {
    var p := t.proposals[i];
    ConsumeTakes(t, env.now, actor.session, SignProposal, i);
    var t1 := Consume(t, env.now, actor.session, SignProposal, i).value;
    var t2 := t1.(signatures := t1.signatures[(i, actor.user) := true]);
    AdjustWorks(t2, i, p, true);
    var (t3, count) := AdjustCount(t2, i, p, true).value;
    var t4 := Log(t3, SignatureAdded(i, count, p.target.value));
    assert Closable(t4, i, p.(count := count));
    CoveredSame(t, t4, p.jurisdiction);
    ClosingIff(t4, env, i, p.(count := count));
    hide Consume, AdjustCount, CloseCollection, Closable, Signable, Covered, Taken;
  }

  /** The same guard over the row as it is just before the collection may close. */
  lemma SignIffFrom(t: Tables, env: Env, actor: Actor, i: Id, key: Option<string>)
    requires FreshKey(t, actor.user, key)
    requires i in t.proposals && t.proposals[i].status.Collecting? && Signable(t, i)
    requires t.proposals[i].target.Some? && t.proposals[i].count < t.proposals[i].target.value
    requires Covered(t, t.proposals[i].jurisdiction)
    ensures SignTx(t, env, actor, i, key).Ok? <==> MaySignNow(t, env, actor, i)
  {
    hide Consume, AdjustCount, CloseCollection, Store, IsActive, Signers, HasGrant, Covered;
    GrantSuffices(t, env.now, actor.session, SignProposal, i);
    ActiveSigns(t, i, actor.user);
    if HasGrant(t, env.now, actor.session, SignProposal, i) {
      SignTail(t, env, actor, i);
    }
  }

  /** A new signature is accepted exactly from a member of the collection electorate who
      does not sign already, with a grant, before the deadline. */
  lemma SignIff(t: Tables, env: Env, actor: Actor, i: Id, key: Option<string>)
    requires FreshKey(t, actor.user, key) && Valid(t)
    ensures SignTx(t, env, actor, i, key).Ok? <==> MaySignNow(t, env, actor, i)
  {
    if i in t.proposals && t.proposals[i].status.Collecting? {
      hide *;
      ValidIsSignable(t, i);
      CollectingShape(t, i);
      CollectingLaw(t, i);
      LawsHaveSetups(t, i);
      SignIffFrom(t, env, actor, i, key);
    } else {
      hide *;
      NothingToSign(t, env, actor, i, key);
    }
  }

  lemma NothingToSign(t: Tables, env: Env, actor: Actor, i: Id, key: Option<string>)
    requires FreshKey(t, actor.user, key) && !(i in t.proposals && t.proposals[i].status.Collecting?)
    ensures SignTx(t, env, actor, i, key).Err? && !MaySignNow(t, env, actor, i)
  {
    hide Consume, AdjustCount, CloseCollection, Store, Electorate, HasGrant, Signers;
  }

  lemma CollectingLaw(t: Tables, i: Id)
    requires i in t.proposals && t.proposals[i].status.Collecting? && Valid(t)
    ensures !t.proposals[i].kind.InitialSetup?
  {
    hide Valid;
    RowIsOk(t, i);
    hide CollectionOk, VoteOk;
  }

  predicate MayUnsignNow(t: Tables, env: Env, actor: Actor, i: Id) {
    && SignaturesFlag in env.flags && MaySign in actor.may
    && i in t.proposals && t.proposals[i].status.Collecting? && Ahead(t.proposals[i].collectEndsAt, env.now)
    && actor.user in Signers(t.signatures, i)
  }

  lemma ActiveSigns(t: Tables, i: Id, user: Id)
    ensures IsActive(t, i, user) <==> user in Signers(t.signatures, i)
  {
    if IsActive(t, i, user) {
      assert (i, user) in t.signatures && (i, user).0 == i && t.signatures[(i, user)];
    }
  }

  lemma UnsignIff(t: Tables, env: Env, actor: Actor, i: Id, key: Option<string>)
    requires FreshKey(t, actor.user, key) && Valid(t)
    ensures UnsignTx(t, env, actor, i, key).Ok? <==> MayUnsignNow(t, env, actor, i)
  {
    hide Valid, ProposalOk;
    ActiveSigns(t, i, actor.user);
    if i in t.proposals && t.proposals[i].status.Collecting? && IsActive(t, i, actor.user) {
      ValidIsSignable(t, i);
      RowIsOk(t, i);
      ActiveIsCounted(t, i, actor.user);
      AdjustWorks(t.(signatures := t.signatures[(i, actor.user) := false]), i, t.proposals[i], false);
    }
    hide AdjustCount, Store, IsActive, Signers;
  }

  lemma UnsignWrites(t: Tables, env: Env, actor: Actor, i: Id, key: Option<string>)
    requires FreshKey(t, actor.user, key) && UnsignTx(t, env, actor, i, key).Ok?
    ensures Unsigned(t, UnsignTx(t, env, actor, i, key).value.0, actor.user, i)
  {
  }

  /** The same signers everywhere and the same rows. */
  ghost predicate SameCollections(t: Tables, v: Tables) {
    v.proposals == t.proposals && forall j :: Signers(v.signatures, j) == Signers(t.signatures, j)
  }

  lemma SignThenUnsign(t: Tables, m: Tables, v: Tables, user: Id, i: Id)
    requires Signed(t, m, user, i) && Unsigned(m, v, user, i)
    ensures SameCollections(t, v)
  {
    SignerAdded(t.signatures, i, user);
    SignerRemoved(m.signatures, i, user);
    hide Signers, Spent, InSnapshot;
    assert v.proposals == t.proposals;
  }

  lemma SameButKeys(m: Tables, u: Tables, v: Tables, user: Id, i: Id)
    requires u == m.(keys := u.keys) && Unsigned(u, v, user, i)
    ensures Unsigned(m, v, user, i)
  {
  }

  lemma SignAddsEvents(t: Tables, env: Env, actor: Actor, i: Id, key: Option<string>)
    requires FreshKey(t, actor.user, key) && SignTx(t, env, actor, i, key).Ok?
    ensures |SignTx(t, env, actor, i, key).value.0.trail| > |t.trail|
  {
    var p := t.proposals[i];
    var t1 := Consume(t, env.now, actor.session, SignProposal, i).value;
    ConsumeTakes(t, env.now, actor.session, SignProposal, i);
    var t2 := t1.(signatures := t1.signatures[(i, actor.user) := true]);
    AdjustedKeys(t2, i, p, true);
    var (t3, count) := AdjustCount(t2, i, p, true).value;
    assert t3.trail == t.trail;
    var t4 := Log(t3, SignatureAdded(i, count, p.target.value));
    hide Consume, Taken, AdjustCount, InSnapshot;
    if count >= p.target.value {
      assert t4.proposals[i] == p.(count := count);
      CloseCollectionLedger(t4, env, i);
    }
    hide CloseCollection, Lookup;
  }

  lemma SignWrites(t: Tables, env: Env, actor: Actor, i: Id, key: Option<string>)
    requires FreshKey(t, actor.user, key) && SignTx(t, env, actor, i, key).Ok?
    ensures SignTx(t, env, actor, i, key).value.0 != t
  {
    hide SignTx;
    SignAddsEvents(t, env, actor, i, key);
  }

  /** Withdrawing a signature undoes it, whatever the clock read, as long as it did not
      complete the collection: same counter, same signers. */
  lemma UnsignUndoes(t: Tables, env: Env, actor: Actor, i: Id, key: Option<string>, later: Env, again: Actor,
                     other: Option<string>)
    requires again.user == actor.user && FreshKey(t, actor.user, key) && Valid(t)
    requires SignTx(t, env, actor, i, key).Ok?
    requires var u := SignTx(t, env, actor, i, key).value.0;
             && i in u.proposals && u.proposals[i].status.Collecting?
             && FreshKey(u, again.user, other) && UnsignTx(u, later, again, i, other).Ok?
    ensures SameCollections(t, UnsignTx(SignTx(t, env, actor, i, key).value.0, later, again, i, other).value.0)
  {
    hide *;
    var u := SignTx(t, env, actor, i, key).value.0;
    var v := UnsignTx(u, later, again, i, other).value.0;
    SignWrites(t, env, actor, i, key);
    SignDelta(t, env, actor, i, key);
    UnsignWrites(u, later, again, i, other);
    var m := AfterSigning(t, env, actor, i);
    SignedIs(t, m, actor.user, i);
    if m.proposals[i].count >= m.proposals[i].target.value {
      ClosedCollectionRow(m, env, i);
      CollectionEnds(m.proposals[i].kind);
    }
    SameButKeys(m, u, v, actor.user, i);
    SignThenUnsign(t, m, v, actor.user, i);
  }

  lemma CollectionEnds(kind: Kind)
    ensures AfterCollection(kind) != Some(Collecting)
  {
  }

  // ------------------------------------------------------------ drafts and publication

  /** The yearly limits of the setup in force: laws have one by kind, setup changes none. */
  ghost predicate WithinQuota(t: Tables, year: int, p: Proposal) {
    && EffectiveSetup(t, p.jurisdiction).Some?
    && var params := t.setups[EffectiveSetup(t, p.jurisdiction).value].params;
       match p.kind
       case NormalLaw => QuotaOf(t, p.author, p.kind, year) < params.quotaNormalPerYear
       case UrgentLaw => QuotaOf(t, p.author, p.kind, year) < params.quotaUrgentPerYear
       case _ => true
  }

  lemma QuotaIs(t: Tables, year: int, p: Proposal)
    requires EffectiveSetup(t, p.jurisdiction).Some?
    ensures var limit := Rules(t.setups[EffectiveSetup(t, p.jurisdiction).value].params, p.kind).quotaPerYear;
            WithinQuota(t, year, p) <==> (limit.Some? ==> QuotaUsed(t, p.author, p.kind, year) < limit.value)
  {
    hide EffectiveSetup;
    QuotaOfIsUsed(t, p.author, p.kind, year);
  }

  ghost predicate MayPublishNow(t: Tables, env: Env, actor: Actor, i: Id) {
    && ProposalsFlag in env.flags && MayCreate in actor.may
    && i in t.proposals && t.proposals[i].status.Draft? && t.proposals[i].author == actor.user
    && LivesIn(actor, t.proposals[i].jurisdiction) && t.proposals[i].jurisdiction in t.catalog
    && Eligible(env, t.proposals[i].jurisdiction) != {}
    && WithinQuota(t, env.year, t.proposals[i])
    && HasGrant(t, env.now, actor.session, CreateProposal, i)
  }

  lemma LawsAreCollected(params: SetupParams, kind: Kind)
    requires CitizenCreatable(kind)
    ensures Rules(params, kind).collectDays.Some?
  {
  }

  /** What follows the grant: only an empty electorate stops the snapshot. */
  lemma PublishTail(t: Tables, env: Env, actor: Actor, i: Id, setup: Id)
    requires i in t.proposals && Publishable(t, i) && t.proposals[i].status.Draft?
    requires Consume(t, env.now, actor.session, CreateProposal, i).Ok?
    ensures var t1 := Consume(t, env.now, actor.session, CreateProposal, i).value;
            var j := t.proposals[i].jurisdiction;
            var r := TakeSnapshot(t1, env, i, CollectionPhase, j, setup);
            && t1.proposals == t.proposals && t1.keys == t.keys && t1.setups == t.setups
            && (r.Ok? <==> Eligible(env, j) != {})
            && (r.Err? ==> r == Err(Conflict(EmptyElectorate)))
            && (r.Ok? ==> r.value.0.proposals == t.proposals && r.value.0.catalog == t.catalog)
  {
    ConsumeTakes(t, env.now, actor.session, CreateProposal, i);
    hide Consume, Taken, Eligible;
  }

  lemma PublishIffFrom(t: Tables, env: Env, actor: Actor, i: Id, key: Option<string>)
    requires FreshKey(t, actor.user, key)
    requires i in t.proposals && Publishable(t, i) && t.proposals[i].status.Draft?
             && CitizenCreatable(t.proposals[i].kind)
    requires EffectiveSetup(t, t.proposals[i].jurisdiction).Some?
    ensures PublishTx(t, env, actor, i, key).Ok? <==> MayPublishNow(t, env, actor, i)
  {
    var p := t.proposals[i];
    hide Consume, Store, QuotaUsed, MinCount, SignatureBp, EffectiveSetup, HasGrant, TakeSnapshot, Rules, Eligible,
         WithinQuota;
    var setup := EffectiveSetup(t, p.jurisdiction).value;
    GrantSuffices(t, env.now, actor.session, CreateProposal, i);
    LawsAreCollected(t.setups[setup].params, p.kind);
    QuotaIs(t, env.year, p);
    if HasGrant(t, env.now, actor.session, CreateProposal, i) {
      PublishTail(t, env, actor, i, setup);
    }
  }

  lemma NothingToPublish(t: Tables, env: Env, actor: Actor, i: Id, key: Option<string>)
    requires FreshKey(t, actor.user, key) && !(i in t.proposals && t.proposals[i].status.Draft?)
    ensures PublishTx(t, env, actor, i, key).Err? && !MayPublishNow(t, env, actor, i)
  {
    hide Consume, Store, QuotaUsed, MinCount, SignatureBp, EffectiveSetup, HasGrant, TakeSnapshot, Rules, Eligible,
         WithinQuota;
  }

  /** A draft is published exactly by its author, inside the author's territory and the
      quota of the setup in force, with a grant, when somebody is eligible. That a setup is
      in force need not be asked: drafts exist only where one is. */
  lemma PublishIff(t: Tables, env: Env, actor: Actor, i: Id, key: Option<string>)
    requires FreshKey(t, actor.user, key) && Valid(t)
    ensures PublishTx(t, env, actor, i, key).Ok? <==> MayPublishNow(t, env, actor, i)
    ensures i in t.proposals && t.proposals[i].status.Draft? ==> EffectiveSetup(t, t.proposals[i].jurisdiction).Some?
  {
    hide *;
    if i in t.proposals && t.proposals[i].status.Draft? {
      ValidIsPublishable(t, i);
      RowIsOk(t, i);
      OwnKind(t, i);
      DraftIsLaw(t.proposals[i].kind);
      LawsHaveSetups(t, i);
      PublishIffFrom(t, env, actor, i, key);
    } else {
      NothingToPublish(t, env, actor, i, key);
    }
  }

  lemma DraftIsLaw(kind: Kind)
    requires CitizenCreatable(kind)
    ensures !kind.InitialSetup?
  {
  }

  /** The row of a saved draft and its package, and everything it leaves alone. */
  ghost predicate WrittenDraft(t: Tables, u: Tables, i: Id, actor: Actor, input: DraftInput) {
    && i in u.proposals
    && var q := u.proposals[i];
       && q.status.Draft? && q.author == actor.user && q.kind == input.kind
       && q.jurisdiction == (match input.level
                             case National => actor.country
                             case State => actor.state
                             case Municipal => actor.municipality)
       && (if input.kind.SetupChange?
           then input.package.Some? && q.proposedSetup.Some? && q.proposedSetup.value !in t.setups
                && q.proposedSetup.value in u.setups
                && u.setups[q.proposedSetup.value] == Setup(q.jurisdiction, None, Proposed, None, input.package.value)
           else q.proposedSetup.None?)
       && (i in t.proposals && t.proposals[i].proposedSetup.Some? ==>
             t.proposals[i].proposedSetup.value in u.setups
             && u.setups[t.proposals[i].proposedSetup.value].status.SetupRejected?)
       && (forall j :: j in t.proposals && j != i ==> j in u.proposals && u.proposals[j] == t.proposals[j])
       && (forall v :: v in t.setups && !(i in t.proposals && t.proposals[i].proposedSetup == Some(v)) ==>
             v in u.setups && u.setups[v] == t.setups[v])
  }

  lemma DraftedIsWritten(t: Tables, u: Tables, i: Id, actor: Actor, input: DraftInput)
    requires DraftPackage(input).Ok? && IdsOk(t)
    requires var j := AuthorJurisdiction(actor, input.level);
             var p := if i in t.proposals then t.proposals[i] else BlankDraft(input.kind, j, actor.user);
             && p.author == actor.user && Drafted(t, u, i, p, input.kind, j, DraftPackage(input).value)
             && (p.proposedSetup.Some? ==>
                   p.proposedSetup.value in t.setups && t.setups[p.proposedSetup.value].status.Proposed?)
    ensures WrittenDraft(t, u, i, actor, input)
  {
    hide Covered, ValidParams, RowCheck;
  }

  lemma DraftAuthor(t: Tables, env: Env, actor: Actor, id: Option<Id>, input: DraftInput)
    requires SaveDraftTx(t, env, actor, id, input).Ok? && t.next !in t.proposals
    ensures var i := SaveDraftTx(t, env, actor, id, input).value.1;
            i in t.proposals ==> t.proposals[i].author == actor.user && t.proposals[i].status.Draft?
  {
    hide Covered, WriteDraft, ValidParams, Rejection;
  }

  /** The places of an account have their levels in the catalog. */
  ghost predicate PlacesFit(c: Catalog, actor: Actor) {
    && actor.country in c && c[actor.country].level.National?
    && actor.state in c && c[actor.state].level.State?
    && actor.municipality in c && c[actor.municipality].level.Municipal?
  }

  lemma DraftFits(t: Tables, u: Tables, i: Id, actor: Actor, input: DraftInput)
    requires WrittenDraft(t, u, i, actor, input)
    ensures i in u.proposals
    ensures PlacesFit(t.catalog, actor) ==>
              && LivesIn(actor, u.proposals[i].jurisdiction) && u.proposals[i].jurisdiction in t.catalog
              && t.catalog[u.proposals[i].jurisdiction].level == input.level
  {
  }

  /** A saved draft is the author's, of the kind and package given, for the author's place
      of the level given; a package it replaces is rejected and nothing else changes. */
  lemma DraftIsAsGiven(t: Tables, env: Env, actor: Actor, id: Option<Id>, input: DraftInput)
    requires SaveDraftTx(t, env, actor, id, input).Ok? && Valid(t)
    ensures var (u, i) := SaveDraftTx(t, env, actor, id, input).value;
            && WrittenDraft(t, u, i, actor, input)
            && (PlacesFit(t.catalog, actor) ==>
                  && LivesIn(actor, u.proposals[i].jurisdiction) && u.proposals[i].jurisdiction in t.catalog
                  && t.catalog[u.proposals[i].jurisdiction].level == input.level)
  {
    hide *;
    KnownIds(t);
    FreshId(t);
    SaveDraftDelta(t, env, actor, id, input);
    DraftAuthor(t, env, actor, id, input);
    var (u, i) := SaveDraftTx(t, env, actor, id, input).value;
    if i in t.proposals {
      DraftsPackage(t, i);
    }
    PreviousIs(t, i, actor, input.kind, AuthorJurisdiction(actor, input.level));
    DraftedIsWritten(t, u, i, actor, input);
    DraftFits(t, u, i, actor, input);
  }

  lemma PreviousIs(t: Tables, i: Id, actor: Actor, kind: Kind, j: Id)
    ensures PreviousRow(t, i, actor, kind, j) == if i in t.proposals then t.proposals[i]
              else BlankDraft(kind, j, actor.user)
    ensures BlankDraft(kind, j, actor.user).author == actor.user && BlankDraft(kind, j, actor.user).proposedSetup.None?
  {
  }

  lemma FreshId(t: Tables)
    requires IdsOk(t)
    ensures t.next !in t.proposals
  {
  }

  lemma DraftsPackage(t: Tables, i: Id)
    requires i in t.proposals && t.proposals[i].status.Draft? && Valid(t)
    ensures var package := t.proposals[i].proposedSetup;
            package.Some? ==> package.value in t.setups && t.setups[package.value].status.Proposed?
  {
    hide Valid;
    PackageIsOk(t, i);
  }

  // ------------------------------------------------------------ the initial plebiscite

  ghost predicate MayStartNow(t: Tables, env: Env, actor: Actor, params: SetupParams) {
    && MayStartSetup in actor.may && ValidParams(params) && Eligible(env, actor.country) != {}
    && EffectiveSetup(t, actor.country).None?
    && forall i :: i in t.proposals && t.proposals[i].kind.InitialSetup? ==> !t.proposals[i].status.InVoting?
  }

  lemma StartIffFrom(t: Tables, env: Env, actor: Actor, params: SetupParams)
    requires forall s :: s in t.snapshots ==> t.snapshots[s].proposal != t.next + 1
    ensures StartTx(t, env, actor, params).Ok? <==> MayStartNow(t, env, actor, params)
  {
    hide ValidParams, Covered, Rules, EffectiveSetup;
  }

  /** A plebiscite starts exactly where no setup applies and none is being voted, with
      valid parameters and somebody eligible. */
  lemma StartIff(t: Tables, env: Env, actor: Actor, params: SetupParams)
    requires Valid(t)
    ensures StartTx(t, env, actor, params).Ok? <==> MayStartNow(t, env, actor, params)
  {
    hide Valid, StartTx, MayStartNow;
    FreshProposal(t);
    StartIffFrom(t, env, actor, params);
  }
}
