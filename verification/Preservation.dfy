/** Every transaction keeps the invariant. */
module Preservation {
  import opened Prelude
  import opened Electoral
  import opened Territory
  import opened Tables
  import opened Transactions
  import opened Integrity

  // ------------------------------------------------------------ shared steps

  lemma ConsumeDelta(t: Tables, now: int, session: Id, action: Critical, resource: Id)
    requires Consume(t, now, session, action, resource).Ok?
    ensures var u := Consume(t, now, session, action, resource).value;
            && u == t.(grants := u.grants) && u.grants.Keys == t.grants.Keys
            && |Consumed(u.grants)| == |Consumed(t.grants)| + 1
  {
    var u := Consume(t, now, session, action, resource).value;
    var g := Oldest(t.grants, UsableGrants(t.grants, now, session, action, resource));
    assert Consumed(u.grants) == Consumed(t.grants) + {g};
  }

  lemma CoveredSame(t: Tables, u: Tables, j: Id)
    requires u.catalog == t.catalog && u.setups == t.setups
    ensures Covered(u, j) == Covered(t, j)
  {
    assert forall n :: HitAt(u, j, n) == HitAt(t, j, n);
  }

  predicate SameStanding(p: Proposal, q: Proposal) {
    && q.kind == p.kind && q.jurisdiction == p.jurisdiction && q.proposedSetup == p.proposedSetup
    && (IsOpen(q.status) <==> IsOpen(p.status))
    && (q.kind.InitialSetup? && q.status.InVoting? ==> p.status.InVoting?)
  }

  ghost predicate SameGovernance(t: Tables, u: Tables) {
    && u.catalog == t.catalog && u.setups == t.setups && u.results == t.results
    && u.proposals.Keys == t.proposals.Keys
    && forall i :: i in t.proposals ==> SameStanding(t.proposals[i], u.proposals[i])
  }

  lemma PackagesKept(t: Tables, u: Tables)
    requires PackagesOk(t) && SameGovernance(t, u)
    ensures PackagesOk(u)
  {
    forall i | i in u.proposals
      ensures PackageOk(u, i)
    {
      assert PackageOk(t, i) && SameStanding(t.proposals[i], u.proposals[i]);
    }
  }

  lemma CoverKept(t: Tables, u: Tables)
    requires CoverOk(t) && SameGovernance(t, u)
    ensures CoverOk(u)
  {
    forall j
      ensures Covered(u, j) == Covered(t, j)
    {
      CoveredSame(t, u, j);
    }
    assert forall i :: i in u.proposals ==> SameStanding(t.proposals[i], u.proposals[i]);
  }

  lemma TrailKept(t: Tables, u: Tables, e: Event, i: Id)
    requires TrailOk(t) && u.trail == t.trail + [e]
    requires forall h, j :: j != i ==> ReplayStep(h, e, j) == h
    requires forall j :: j != i ==> Stored(u, j) == Stored(t, j)
    requires ReplayStep(Stored(t, i), e, i) == Stored(u, i)
    ensures TrailOk(u)
  {
    forall j
      ensures Replay(u.trail, j) == Stored(u, j)
    {
      Appended(t.trail, e, j);
    }
  }

  // ------------------------------------------------------------ signatures

  lemma SignerAdded(sigs: map<(Id, Id), bool>, i: Id, user: Id)
    requires !((i, user) in sigs && sigs[(i, user)])
    ensures Signers(sigs[(i, user) := true], i) == Signers(sigs, i) + {user}
    ensures user !in Signers(sigs, i)
    ensures forall j :: j != i ==> Signers(sigs[(i, user) := true], j) == Signers(sigs, j)
  {
    var more := sigs[(i, user) := true];
    forall u | u in Signers(sigs, i) + {user}
      ensures u in Signers(more, i)
    {
      assert (i, u) in more && more[(i, u)];
    }
  }

  lemma SignerRemoved(sigs: map<(Id, Id), bool>, i: Id, user: Id)
    requires (i, user) in sigs && sigs[(i, user)]
    ensures Signers(sigs[(i, user) := false], i) == Signers(sigs, i) - {user}
    ensures user in Signers(sigs, i)
    ensures forall j :: j != i ==> Signers(sigs[(i, user) := false], j) == Signers(sigs, j)
  {
    assert (i, user) in sigs;
    var fewer := sigs[(i, user) := false];
    forall u | u in Signers(sigs, i) - {user}
      ensures u in Signers(fewer, i)
    {
      assert (i, u) in fewer && fewer[(i, u)];
    }
  }

  ghost predicate Unsigned(t: Tables, u: Tables, user: Id, i: Id) {
    && i in t.proposals && t.proposals[i].status.Collecting? && IsActive(t, i, user)
    && t.proposals[i].count > 0 && t.proposals[i].target.Some?
    && var p := t.proposals[i];
       u == t.(signatures := t.signatures[(i, user) := false],
               proposals := t.proposals[i := p.(count := p.count - 1)],
               trail := t.trail + [SignatureWithdrawn(i, p.count - 1, p.target.value)],
               keys := u.keys)
  }

  lemma UnsignDelta(t: Tables, env: Env, actor: Actor, i: Id, key: Option<string>)
    requires UnsignTx(t, env, actor, i, key).Ok?
    ensures var u := UnsignTx(t, env, actor, i, key).value.0; u == t || Unsigned(t, u, actor.user, i)
  {
  }

  lemma UnsignedProposal(t: Tables, u: Tables, user: Id, i: Id)
    requires Unsigned(t, u, user, i) && ProposalOk(t, i)
    ensures ProposalOk(u, i)
  {
    SignerRemoved(t.signatures, i, user);
  }

  lemma UnsignedLocal(t: Tables, u: Tables, user: Id, i: Id)
    requires Unsigned(t, u, user, i) && BooksOk(t)
    ensures Local(t, u, i)
  {
  }

  lemma UnsignedGovernance(t: Tables, u: Tables, user: Id, i: Id)
    requires Unsigned(t, u, user, i) && BooksOk(t)
    ensures SameGovernance(t, u)
  {
  }

  lemma UnsignedBooks(t: Tables, u: Tables, user: Id, i: Id)
    requires Unsigned(t, u, user, i) && BooksOk(t)
    ensures BooksOk(u)
  {
  }

  lemma UnsignedStep(t: Tables, u: Tables, user: Id, i: Id)
    requires Unsigned(t, u, user, i) && BooksOk(t)
    ensures Local(t, u, i) && SameGovernance(t, u) && BooksOk(u)
  {
    hide Local, SameGovernance, BooksOk, SnapshotsOk, Unsigned;
    UnsignedLocal(t, u, user, i);
    UnsignedGovernance(t, u, user, i);
    UnsignedBooks(t, u, user, i);
  }

  lemma UnsignedSnapshots(t: Tables, u: Tables, user: Id, i: Id)
    requires Unsigned(t, u, user, i) && SnapshotsOk(t)
    ensures SnapshotsOk(u)
  {
    assert forall s :: s in u.snapshots ==> SnapshotOk(t, s);
  }

  lemma UnsignedTrail(t: Tables, u: Tables, user: Id, i: Id)
    requires TrailOk(t) && GrantsOk(t) && Unsigned(t, u, user, i)
    ensures TrailOk(u) && GrantsOk(u)
  {
    var e := SignatureWithdrawn(i, t.proposals[i].count - 1, t.proposals[i].target.value);
    TrailKept(t, u, e, i);
    Appended(t.trail, e, i);
  }

  lemma UnsignKeeps(t: Tables, env: Env, actor: Actor, i: Id, key: Option<string>)
    requires Valid(t) && UnsignTx(t, env, actor, i, key).Ok?
    ensures Valid(UnsignTx(t, env, actor, i, key).value.0)
  {
    var u := UnsignTx(t, env, actor, i, key).value.0;
    UnsignDelta(t, env, actor, i, key);
    hide UnsignTx, ProposalOk, BooksOk, SnapshotsOk, SetupsOk, PackagesOk, CoverOk, TrailOk, GrantsOk, Forest, Local,
         SameGovernance;
    if u != t {
      UnsignedProposal(t, u, actor.user, i);
      UnsignedStep(t, u, actor.user, i);
      UnsignedSnapshots(t, u, actor.user, i);
      OthersKept(t, u, i);
      PackagesKept(t, u);
      CoverKept(t, u);
      UnsignedTrail(t, u, actor.user, i);
    }
  }

  // ------------------------------------------------------------ opening a phase

  /** All of the invariant except the shape of proposal `i`, whose signatures have
      reached the target and which is about to enter its next phase. */
  ghost predicate Pending(m: Tables, i: Id) {
    && Forest(m.catalog) && BooksOk(m) && SnapshotsOk(m)
    && SetupsOk(m.setups) && PackagesOk(m) && CoverOk(m) && TrailOk(m) && GrantsOk(m)
    && OthersOk(m, i) && i in m.proposals && ReadyFor(m, i, m.proposals[i])
  }

  ghost predicate OthersOk(m: Tables, i: Id) { forall j :: j in m.proposals && j != i ==> ProposalOk(m, j) }

  ghost predicate ReadyFor(m: Tables, i: Id, p: Proposal) {
    && RowCheck(p) && CollectionOk(m, i, p) && VoteOk(m, i, p)
    && !p.kind.InitialSetup? && (IsSetupVote(p.kind) <==> p.proposedSetup.Some?)
    && p.collectionSnapshot.Some? && p.setupVersion.Some? && p.collectEndsAt.Some? && Reached(p)
    && p.voteSnapshot.None? && p.voteSetupVersion.None? && p.voteEndsAt.None?
    && (p.status.Collecting? || p.status.InDebate?)
  }

  lemma OthersStay(m: Tables, u: Tables, i: Id)
    requires Local(m, u, i) && OthersOk(m, i) && u.proposals.Keys == m.proposals.Keys
    requires i in u.proposals && ProposalOk(u, i)
    ensures ProposalsOk(u)
  {
    forall j | j in u.proposals
      ensures ProposalOk(u, j)
    {
      if j != i {
        assert ProposalOk(m, j);
        OtherKept(m, u, i, j);
      }
    }
  }

  ghost predicate Debated(m: Tables, u: Tables, i: Id, ends: int) {
    && i in m.proposals && m.proposals[i].status.Collecting?
    && u == m.(proposals := m.proposals[i := m.proposals[i].(status := InDebate, debateEndsAt := Some(ends))],
               trail := m.trail + [PhaseChanged(i, Collecting, InDebate)])
  }

  lemma DebatedStep(m: Tables, u: Tables, i: Id, ends: int)
    requires Debated(m, u, i, ends)
    ensures Local(m, u, i) && SameGovernance(m, u)
  {
  }

  lemma DebatedBooks(m: Tables, u: Tables, i: Id, ends: int)
    requires Debated(m, u, i, ends) && BooksOk(m) && SnapshotsOk(m)
    ensures BooksOk(u) && SnapshotsOk(u)
  {
    assert forall s :: s in u.snapshots ==> SnapshotOk(m, s);
  }

  lemma DebatedProposal(m: Tables, u: Tables, i: Id, ends: int)
    requires Debated(m, u, i, ends) && ReadyFor(m, i, m.proposals[i])
    requires m.proposals[i].kind.NormalLaw? || m.proposals[i].kind.SetupChange?
    ensures ProposalOk(u, i)
  {
  }

  lemma PhaseTrail(m: Tables, u: Tables, i: Id, from: Status, to: Status)
    requires TrailOk(m) && GrantsOk(m) && i in m.proposals && !from.Draft? && !to.Draft?
    requires m.proposals[i].status == from && u.trail == m.trail + [PhaseChanged(i, from, to)]
    requires u.ballots == m.ballots && u.grants == m.grants && i in u.proposals
    requires u.proposals[i].status == to && u.proposals[i].count == m.proposals[i].count
    requires forall j :: j != i ==> (j in u.proposals <==> j in m.proposals)
    requires forall j :: j in m.proposals && j != i ==> u.proposals[j] == m.proposals[j]
    ensures TrailOk(u) && GrantsOk(u)
  {
    TrailKept(m, u, PhaseChanged(i, from, to), i);
    Appended(m.trail, PhaseChanged(i, from, to), i);
  }

  lemma DebateKeeps(m: Tables, u: Tables, i: Id, ends: int)
    requires Pending(m, i) && Debated(m, u, i, ends)
    requires m.proposals[i].kind.NormalLaw? || m.proposals[i].kind.SetupChange?
    ensures Valid(u)
  {
    hide Local, SameGovernance, BooksOk, SnapshotsOk, SetupsOk, PackagesOk, CoverOk, TrailOk, GrantsOk, Forest,
         OthersOk, ReadyFor, ProposalOk, ProposalsOk;
    DebatedStep(m, u, i, ends);
    DebatedBooks(m, u, i, ends);
    DebatedProposal(m, u, i, ends);
    OthersStay(m, u, i);
    PackagesKept(m, u);
    CoverKept(m, u);
    PhaseTrail(m, u, i, Collecting, InDebate);
  }

  ghost predicate VotingOpened(m: Tables, u: Tables, env: Env, i: Id, setup: Id) {
    && i in m.proposals && setup in m.setups && Eligible(env, m.proposals[i].jurisdiction) != {}
    && (forall s :: s in m.snapshots ==> !(m.snapshots[s].proposal == i && m.snapshots[s].phase.VotingPhase?))
    && var p := m.proposals[i];
       var members := Eligible(env, p.jurisdiction);
       u == m.(next := m.next + 1,
               snapshots := m.snapshots[m.next := Snapshot(i, VotingPhase, p.jurisdiction, setup, |members|, members)],
               proposals := m.proposals[i := p.(status := InVoting, voteSetupVersion := Some(setup),
                                                voteSnapshot := Some(m.next),
                 voteEndsAt := Some(env.now + Rules(m.setups[setup].params, p.kind).voteDays * DAY))],
               trail := m.trail + [PhaseChanged(i, p.status, InVoting)])
  }

  lemma OpenVotingDelta(m: Tables, env: Env, i: Id, p: Proposal)
    requires i in m.proposals && m.proposals[i] == p && OpenVoting(m, env, i, p).Ok?
    ensures EffectiveSetup(m, p.jurisdiction).Some?
    ensures VotingOpened(m, OpenVoting(m, env, i, p).value, env, i, EffectiveSetup(m, p.jurisdiction).value)
  {
  }

  lemma OpenedLocal(m: Tables, u: Tables, env: Env, i: Id, setup: Id)
    requires VotingOpened(m, u, env, i, setup) && BooksOk(m) && !m.proposals[i].kind.InitialSetup?
    requires m.proposals[i].status.Collecting? || m.proposals[i].status.InDebate?
    ensures Local(m, u, i)
  {
    assert m.next !in m.snapshots;
    hide IdsOk, RefsOk, DistinctBallots, Rules;
  }

  lemma OpenedGovernance(m: Tables, u: Tables, env: Env, i: Id, setup: Id)
    requires VotingOpened(m, u, env, i, setup) && BooksOk(m) && !m.proposals[i].kind.InitialSetup?
    requires m.proposals[i].status.Collecting? || m.proposals[i].status.InDebate?
    ensures SameGovernance(m, u)
  {
    hide IdsOk, RefsOk, DistinctBallots, Rules;
  }

  lemma OpenedStep(m: Tables, u: Tables, env: Env, i: Id, setup: Id)
    requires VotingOpened(m, u, env, i, setup) && BooksOk(m) && !m.proposals[i].kind.InitialSetup?
    requires m.proposals[i].status.Collecting? || m.proposals[i].status.InDebate?
    ensures Local(m, u, i) && SameGovernance(m, u)
  {
    hide Local, SameGovernance, BooksOk, SnapshotsOk, VotingOpened;
    OpenedLocal(m, u, env, i, setup);
    OpenedGovernance(m, u, env, i, setup);
  }

  lemma OpenedBooks(m: Tables, u: Tables, env: Env, i: Id, setup: Id)
    requires VotingOpened(m, u, env, i, setup) && BooksOk(m)
    ensures BooksOk(u)
  {
    assert u.proposals.Keys == m.proposals.Keys;
  }

  lemma OpenedSnapshots(m: Tables, u: Tables, env: Env, i: Id, setup: Id)
    requires VotingOpened(m, u, env, i, setup) && BooksOk(m) && SnapshotsOk(m) && Sane(env)
    ensures SnapshotsOk(u)
  {
    forall s | s in u.snapshots
      ensures SnapshotOk(u, s)
    {
      if s != m.next {
        assert SnapshotOk(m, s);
      }
    }
  }

  lemma OpenedProposal(m: Tables, u: Tables, env: Env, i: Id, setup: Id)
    requires VotingOpened(m, u, env, i, setup) && BooksOk(m) && SetupsOk(m.setups)
    requires ReadyFor(m, i, m.proposals[i])
    ensures ProposalOk(u, i)
  {
    assert VersionOk(m.setups, setup);
    assert m.next !in m.snapshots;
  }

  lemma VotingFrom(m: Tables, u: Tables, env: Env, i: Id, setup: Id)
    requires VotingOpened(m, u, env, i, setup) && ReadyFor(m, i, m.proposals[i])
    ensures !m.proposals[i].kind.InitialSetup? && (m.proposals[i].status.Collecting? || m.proposals[i].status.InDebate?)
    ensures u.catalog == m.catalog && u.setups == m.setups && u.proposals.Keys == m.proposals.Keys && i in u.proposals
    ensures u.trail == m.trail + [PhaseChanged(i, m.proposals[i].status, InVoting)]
    ensures u.ballots == m.ballots && u.grants == m.grants && u.proposals[i].status.InVoting?
    ensures u.proposals[i].count == m.proposals[i].count
    ensures forall j :: j in m.proposals && j != i ==> u.proposals[j] == m.proposals[j]
  {
    hide CollectionOk, VoteOk, Rules;
  }

  lemma VotingKeeps(m: Tables, u: Tables, env: Env, i: Id, setup: Id)
    requires Pending(m, i) && Sane(env) && VotingOpened(m, u, env, i, setup)
    ensures Valid(u)
  {
    hide Local, SameGovernance, BooksOk, SnapshotsOk, SetupsOk, PackagesOk, CoverOk, TrailOk, GrantsOk, Forest,
         OthersOk, ReadyFor, ProposalOk, VotingOpened, ProposalsOk, Sane;
    VotingFrom(m, u, env, i, setup);
    OpenedStep(m, u, env, i, setup);
    OpenedBooks(m, u, env, i, setup);
    OpenedSnapshots(m, u, env, i, setup);
    OpenedProposal(m, u, env, i, setup);
    OthersStay(m, u, i);
    PackagesKept(m, u);
    CoverKept(m, u);
    PhaseTrail(m, u, i, m.proposals[i].status, InVoting);
  }

  // ------------------------------------------------------------ signing

  ghost predicate Spent(t: Tables, grants: map<Id, Grant>) {
    grants.Keys == t.grants.Keys && |Consumed(grants)| == |Consumed(t.grants)| + 1
  }

  ghost predicate Signed(t: Tables, m: Tables, user: Id, i: Id) {
    && i in t.proposals && t.proposals[i].status.Collecting? && !IsActive(t, i, user)
    && t.proposals[i].collectionSnapshot.Some? && t.proposals[i].target.Some?
    && InSnapshot(t, t.proposals[i].collectionSnapshot.value, user)
    && Spent(t, m.grants)
    && var p := t.proposals[i];
       m == t.(grants := m.grants, signatures := t.signatures[(i, user) := true],
               proposals := t.proposals[i := p.(count := p.count + 1)],
               trail := t.trail + [SignatureAdded(i, p.count + 1, p.target.value)])
  }

  ghost function AfterSigning(t: Tables, env: Env, actor: Actor, i: Id): Tables
    requires i in t.proposals && t.proposals[i].target.Some?
    requires Consume(t, env.now, actor.session, SignProposal, i).Ok?
  {
    var p := t.proposals[i];
    var t1 := Consume(t, env.now, actor.session, SignProposal, i).value;
    t1.(signatures := t1.signatures[(i, actor.user) := true],
        proposals := t1.proposals[i := p.(count := p.count + 1)],
        trail := t1.trail + [SignatureAdded(i, p.count + 1, p.target.value)])
  }

  /** What a signature that is not a replay has passed. */
  lemma SignPassed(t: Tables, env: Env, actor: Actor, i: Id, key: Option<string>)
    requires SignTx(t, env, actor, i, key).Ok? && SignTx(t, env, actor, i, key).value.0 != t
    ensures i in t.proposals && t.proposals[i].status.Collecting? && !IsActive(t, i, actor.user)
    ensures t.proposals[i].collectionSnapshot.Some? && t.proposals[i].target.Some?
    ensures InSnapshot(t, t.proposals[i].collectionSnapshot.value, actor.user)
    ensures Consume(t, env.now, actor.session, SignProposal, i).Ok?
    ensures Lookup(t, actor.user, key, KSign, OnProposal(i)) == Ok(None)
  {
    hide Consume, Store, CloseCollection, AdjustCount, Lookup, InSnapshot, IsActive;
  }

  lemma SignResult(t: Tables, env: Env, actor: Actor, i: Id, key: Option<string>)
    requires SignTx(t, env, actor, i, key).Ok? && SignTx(t, env, actor, i, key).value.0 != t
    ensures i in t.proposals && t.proposals[i].target.Some? && Consume(t, env.now, actor.session, SignProposal, i).Ok?
    ensures var u := SignTx(t, env, actor, i, key).value.0;
            var m := AfterSigning(t, env, actor, i);
            && i in m.proposals
            && (m.proposals[i].count < m.proposals[i].target.value ==> u == m.(keys := u.keys))
            && (m.proposals[i].count >= m.proposals[i].target.value ==>
                  && CloseCollection(m, env, i, m.proposals[i]).Ok?
                  && u == CloseCollection(m, env, i, m.proposals[i]).value.0.(keys := u.keys))
  {
    SignPassed(t, env, actor, i, key);
    ConsumeDelta(t, env.now, actor.session, SignProposal, i);
    hide Consume, CloseCollection, Lookup, InSnapshot, IsActive, Consumed;
    var t1 := Consume(t, env.now, actor.session, SignProposal, i).value;
    var t2 := t1.(signatures := t1.signatures[(i, actor.user) := true]);
    AdjustedIs(t2, i, t.proposals[i]);
    hide AdjustCount;
  }

  lemma AdjustedIs(t: Tables, i: Id, p: Proposal)
    requires i in t.proposals && AdjustCount(t, i, p, true).Ok? && t.proposals[i] == p
    ensures AdjustCount(t, i, p, true).value ==
              (t.(proposals := t.proposals[i := p.(count := p.count + 1)]), p.count + 1)
  {
  }

  /** A signature either stays below the target or closes the collection. */
  lemma SignDelta(t: Tables, env: Env, actor: Actor, i: Id, key: Option<string>)
    requires SignTx(t, env, actor, i, key).Ok?
    ensures var u := SignTx(t, env, actor, i, key).value.0;
            u != t ==>
              && i in t.proposals && t.proposals[i].target.Some?
              && Consume(t, env.now, actor.session, SignProposal, i).Ok?
              && var m := AfterSigning(t, env, actor, i);
                 && Signed(t, m, actor.user, i)
                 && i in m.proposals
                 && (m.proposals[i].count < m.proposals[i].target.value ==> u == m.(keys := u.keys))
                 && (m.proposals[i].count >= m.proposals[i].target.value ==>
                       && CloseCollection(m, env, i, m.proposals[i]).Ok?
                       && u == CloseCollection(m, env, i, m.proposals[i]).value.0.(keys := u.keys))
  {
    hide SignTx, Consume, CloseCollection, InSnapshot, IsActive;
    if SignTx(t, env, actor, i, key).value.0 != t {
      SignPassed(t, env, actor, i, key);
      SignResult(t, env, actor, i, key);
      ConsumeDelta(t, env.now, actor.session, SignProposal, i);
    }
  }

  lemma SignedIs(t: Tables, m: Tables, user: Id, i: Id)
    requires Signed(t, m, user, i)
    ensures i in t.proposals && i in m.proposals && t.proposals[i].status.Collecting? && m.setups == t.setups
    ensures m.proposals[i] == t.proposals[i].(count := t.proposals[i].count + 1)
  {
    hide Spent, InSnapshot;
  }

  lemma SignedLocal(t: Tables, m: Tables, user: Id, i: Id)
    requires Signed(t, m, user, i) && BooksOk(t) && SnapshotsOk(t)
    ensures Local(t, m, i)
  {
    hide SnapshotsOk, BooksOk, InSnapshot;
  }

  lemma SignedGovernance(t: Tables, m: Tables, user: Id, i: Id)
    requires Signed(t, m, user, i) && BooksOk(t) && SnapshotsOk(t)
    ensures SameGovernance(t, m)
  {
    hide SnapshotsOk, BooksOk, InSnapshot;
  }

  lemma SignedBooks(t: Tables, m: Tables, user: Id, i: Id)
    requires Signed(t, m, user, i) && BooksOk(t) && SnapshotsOk(t)
    ensures BooksOk(m)
  {
    hide SnapshotsOk, InSnapshot;
  }

  lemma SignedStep(t: Tables, m: Tables, user: Id, i: Id)
    requires Signed(t, m, user, i) && BooksOk(t) && SnapshotsOk(t)
    ensures Local(t, m, i) && SameGovernance(t, m) && BooksOk(m)
  {
    hide Local, SameGovernance, BooksOk, SnapshotsOk, Signed;
    SignedLocal(t, m, user, i);
    SignedGovernance(t, m, user, i);
    SignedBooks(t, m, user, i);
  }

  lemma SignedSnapshots(t: Tables, m: Tables, user: Id, i: Id)
    requires Signed(t, m, user, i) && SnapshotsOk(t)
    ensures SnapshotsOk(m)
  {
    assert forall s :: s in m.snapshots ==> SnapshotOk(t, s);
  }

  /** Only the comparison with the target is open after the row is written. */
  lemma SignedProposal(t: Tables, m: Tables, user: Id, i: Id)
    requires Signed(t, m, user, i) && ProposalOk(t, i)
    ensures m.proposals[i].count < m.proposals[i].target.value ==> ProposalOk(m, i)
    ensures m.proposals[i].count >= m.proposals[i].target.value ==> ReadyFor(m, i, m.proposals[i])
  {
    SignerAdded(t.signatures, i, user);
  }

  lemma SignedOthers(t: Tables, m: Tables, i: Id)
    requires Local(t, m, i) && ProposalsOk(t) && m.proposals.Keys == t.proposals.Keys
    ensures OthersOk(m, i)
  {
    forall j | j in m.proposals && j != i
      ensures ProposalOk(m, j)
    {
      assert ProposalOk(t, j);
      OtherKept(t, m, i, j);
    }
  }

  lemma SignedTrail(t: Tables, m: Tables, user: Id, i: Id)
    requires TrailOk(t) && GrantsOk(t) && Signed(t, m, user, i)
    ensures TrailOk(m) && GrantsOk(m)
  {
    var e := SignatureAdded(i, t.proposals[i].count + 1, t.proposals[i].target.value);
    TrailKept(t, m, e, i);
    Appended(t.trail, e, i);
  }

  lemma SignedKeeps(t: Tables, m: Tables, user: Id, i: Id)
    requires Valid(t) && Signed(t, m, user, i)
    ensures m.proposals[i].count < m.proposals[i].target.value ==> Valid(m)
    ensures m.proposals[i].count >= m.proposals[i].target.value ==> Pending(m, i)
  {
    assert ProposalOk(t, i);
    hide ProposalOk, ReadyFor, BooksOk, SnapshotsOk, SetupsOk, PackagesOk, CoverOk, TrailOk, GrantsOk, Forest, Local,
         SameGovernance;
    SignedStep(t, m, user, i);
    SignedSnapshots(t, m, user, i);
    SignedProposal(t, m, user, i);
    SignedOthers(t, m, i);
    PackagesKept(t, m);
    CoverKept(t, m);
    SignedTrail(t, m, user, i);
  }

  lemma KeysLocal(t: Tables, u: Tables)
    requires u == t.(keys := u.keys) && BooksOk(t)
    ensures Local(t, u, t.next) && SameGovernance(t, u) && t.next !in t.proposals
  {
    hide RefsOk, DistinctBallots;
  }

  lemma KeysBooks(t: Tables, u: Tables)
    requires u == t.(keys := u.keys) && BooksOk(t) && SnapshotsOk(t)
    ensures BooksOk(u) && SnapshotsOk(u)
  {
    assert forall s :: s in u.snapshots ==> SnapshotOk(t, s);
  }

  /** Stored responses are outside the invariant. */
  lemma KeysStep(t: Tables, u: Tables)
    requires u == t.(keys := u.keys) && BooksOk(t) && SnapshotsOk(t)
    ensures Local(t, u, t.next) && SameGovernance(t, u) && BooksOk(u) && SnapshotsOk(u) && t.next !in t.proposals
  {
    hide Local, SameGovernance, BooksOk, SnapshotsOk;
    KeysLocal(t, u);
    KeysBooks(t, u);
  }

  lemma KeysTrail(t: Tables, u: Tables)
    requires u == t.(keys := u.keys) && TrailOk(t) && GrantsOk(t)
    ensures TrailOk(u) && GrantsOk(u)
  {
    assert forall j :: Stored(u, j) == Stored(t, j);
  }

  lemma KeysAside(t: Tables, keys: map<(Id, string), KeyRow>)
    requires Valid(t)
    ensures Valid(t.(keys := keys))
  {
    var u := t.(keys := keys);
    hide ProposalOk, BooksOk, SnapshotsOk, SetupsOk, PackagesOk, CoverOk, TrailOk, GrantsOk, Forest, Local,
         SameGovernance, ProposalsOk;
    KeysStep(t, u);
    OthersKept(t, u, t.next);
    PackagesKept(t, u);
    CoverKept(t, u);
    KeysTrail(t, u);
  }

  lemma ClosedCollectionDelta(m: Tables, env: Env, i: Id)
    requires i in m.proposals && m.proposals[i].status.Collecting?
    requires CloseCollection(m, env, i, m.proposals[i]).Ok?
    ensures var p := m.proposals[i];
            var u := CloseCollection(m, env, i, p).value.0;
            if p.kind.UrgentLaw? then OpenVoting(m, env, i, p).Ok? && u == OpenVoting(m, env, i, p).value
            else (p.kind.NormalLaw? || p.kind.SetupChange?) && p.setupVersion.Some? && p.setupVersion.value in m.setups
                 && var days := Rules(m.setups[p.setupVersion.value].params, p.kind).debateDays;
                    days.Some? && Debated(m, u, i, env.now + days.value * DAY)
  {
    hide OpenVoting;
  }

  lemma ClosedCollectionKeeps(m: Tables, env: Env, i: Id)
    requires i in m.proposals && m.proposals[i].status.Collecting?
    requires Pending(m, i) && Sane(env) && CloseCollection(m, env, i, m.proposals[i]).Ok?
    ensures Valid(CloseCollection(m, env, i, m.proposals[i]).value.0)
  {
    hide *;
    var p := m.proposals[i];
    var u := CloseCollection(m, env, i, p).value.0;
    ClosedCollectionDelta(m, env, i);
    if p.kind.UrgentLaw? {
      OpenVotingDelta(m, env, i, p);
      VotingKeeps(m, u, env, i, EffectiveSetup(m, p.jurisdiction).value);
    } else {
      DebateKeeps(m, u, i, env.now + Rules(m.setups[p.setupVersion.value].params, p.kind).debateDays.value * DAY);
    }
  }

  lemma SignKeeps(t: Tables, env: Env, actor: Actor, i: Id, key: Option<string>)
    requires Valid(t) && Sane(env) && SignTx(t, env, actor, i, key).Ok?
    ensures Valid(SignTx(t, env, actor, i, key).value.0)
  {
    var u := SignTx(t, env, actor, i, key).value.0;
    SignDelta(t, env, actor, i, key);
    hide SignTx, Valid, Pending, Consume, Signed, CloseCollection;
    if u != t {
      var m := AfterSigning(t, env, actor, i);
      SignedKeeps(t, m, actor.user, i);
      if m.proposals[i].count < m.proposals[i].target.value {
        KeysAside(m, u.keys);
      } else {
        ClosedCollectionKeeps(m, env, i);
        KeysAside(CloseCollection(m, env, i, m.proposals[i]).value.0, u.keys);
      }
    }
  }

  // ------------------------------------------------------------ publication

  ghost predicate PublishedAs(t: Tables, u: Tables, env: Env, i: Id, setup: Id) {
    && i in t.proposals && t.proposals[i].status.Draft? && !t.proposals[i].kind.InitialSetup?
    && setup in t.setups && Spent(t, u.grants)
    && t.proposals[i].jurisdiction in t.catalog && Eligible(env, t.proposals[i].jurisdiction) != {}
    && var p := t.proposals[i];
       var members := Eligible(env, p.jurisdiction);
       var rules := Rules(t.setups[setup].params, p.kind);
       var target := Max1(MinCount(SignatureBp(t.setups[setup].params, t.catalog[p.jurisdiction].level), |members|));
       && rules.collectDays.Some?
       && u == t.(next := t.next + 1, grants := u.grants, keys := u.keys,
                  snapshots := t.snapshots[t.next := Snapshot(i, CollectionPhase, p.jurisdiction, setup, |members|,
                                                              members)],
                  proposals := t.proposals[i := p.(
                    status := Collecting, setupVersion := Some(setup), collectionSnapshot := Some(t.next),
                    target := Some(target),
                    quotaYear := if rules.quotaPerYear.Some? then Some(env.year) else None,
                    collectEndsAt := Some(env.now + rules.collectDays.value * DAY), publishedAt := Some(env.now))],
                  trail := t.trail + [ProposalPublished(i, target)])
  }

  /** What a publication that is not a replay has passed. */
  lemma PublishPassed(t: Tables, env: Env, actor: Actor, i: Id, key: Option<string>)
    requires PublishTx(t, env, actor, i, key).Ok? && PublishTx(t, env, actor, i, key).value.0 != t
    ensures i in t.proposals && t.proposals[i].author == actor.user && t.proposals[i].status.Draft?
    ensures CitizenCreatable(t.proposals[i].kind) && t.proposals[i].jurisdiction in t.catalog
    ensures EffectiveSetup(t, t.proposals[i].jurisdiction).Some?
    ensures Consume(t, env.now, actor.session, CreateProposal, i).Ok?
            && Eligible(env, t.proposals[i].jurisdiction) != {}
    ensures var p := t.proposals[i];
            var rules := Rules(t.setups[EffectiveSetup(t, p.jurisdiction).value].params, p.kind);
            rules.collectDays.Some?
            && (rules.quotaPerYear.Some? ==> QuotaUsed(t, actor.user, p.kind, env.year) < rules.quotaPerYear.value)
  {
    if Consume(t, env.now, actor.session, CreateProposal, i).Ok? {
      ConsumeDelta(t, env.now, actor.session, CreateProposal, i);
    }
    hide Consume, Lookup, QuotaUsed, MinCount, SignatureBp, Covered, Consumed, EffectiveSetup, Store, RowCheck;
  }

  lemma PublishDelta(t: Tables, env: Env, actor: Actor, i: Id, key: Option<string>)
    requires PublishTx(t, env, actor, i, key).Ok?
    ensures var u := PublishTx(t, env, actor, i, key).value.0;
            u != t ==>
              && i in t.proposals && EffectiveSetup(t, t.proposals[i].jurisdiction).Some?
              && PublishedAs(t, u, env, i, EffectiveSetup(t, t.proposals[i].jurisdiction).value)
  {
    hide Lookup, QuotaUsed, MinCount, SignatureBp, Covered, EffectiveSetup, Rules, RowCheck, TakeSnapshot, Eligible,
         Consume;
    if PublishTx(t, env, actor, i, key).value.0 != t {
      PublishPassed(t, env, actor, i, key);
      ConsumeDelta(t, env.now, actor.session, CreateProposal, i);
      var t1 := Consume(t, env.now, actor.session, CreateProposal, i).value;
      SnapshotIs(t1, env, i, CollectionPhase, t.proposals[i].jurisdiction,
                 EffectiveSetup(t, t.proposals[i].jurisdiction).value);
    }
    hide Consumed;
  }

  lemma SnapshotIs(t: Tables, env: Env, i: Id, phase: Phase, j: Id, setup: Id)
    requires TakeSnapshot(t, env, i, phase, j, setup).Ok?
    ensures var members := Eligible(env, j);
            TakeSnapshot(t, env, i, phase, j, setup).value ==
            (t.(next := t.next + 1,
                snapshots := t.snapshots[t.next := Snapshot(i, phase, j, setup, |members|, members)]), t.next,
                             |members|)
  {
  }

  lemma PublishedLocal(t: Tables, u: Tables, env: Env, i: Id, setup: Id)
    requires PublishedAs(t, u, env, i, setup) && BooksOk(t)
    ensures Local(t, u, i)
  {
    assert t.next !in t.snapshots;
    hide IdsOk, RefsOk, DistinctBallots, MinCount, SignatureBp, Rules;
  }

  lemma PublishedGovernance(t: Tables, u: Tables, env: Env, i: Id, setup: Id)
    requires PublishedAs(t, u, env, i, setup) && BooksOk(t)
    ensures SameGovernance(t, u)
  {
    hide IdsOk, RefsOk, DistinctBallots, MinCount, SignatureBp, Rules;
  }

  lemma PublishedStep(t: Tables, u: Tables, env: Env, i: Id, setup: Id)
    requires PublishedAs(t, u, env, i, setup) && BooksOk(t)
    ensures Local(t, u, i) && SameGovernance(t, u)
  {
    hide Local, SameGovernance, BooksOk, SnapshotsOk, PublishedAs;
    PublishedLocal(t, u, env, i, setup);
    PublishedGovernance(t, u, env, i, setup);
  }

  lemma PublishedBooks(t: Tables, u: Tables, env: Env, i: Id, setup: Id)
    requires PublishedAs(t, u, env, i, setup) && BooksOk(t)
    ensures BooksOk(u)
  {
    assert u.proposals.Keys == t.proposals.Keys;
  }

  lemma PublishedSnapshots(t: Tables, u: Tables, env: Env, i: Id, setup: Id)
    requires PublishedAs(t, u, env, i, setup) && BooksOk(t) && SnapshotsOk(t) && Sane(env)
    requires ProposalOk(t, i)
    ensures SnapshotsOk(u)
  {
    assert t.proposals[i].collectionSnapshot.None?;
    hide ProposalOk;
    forall s | s in u.snapshots
      ensures SnapshotOk(u, s)
    {
      if s != t.next {
        assert SnapshotOk(t, s);
      }
    }
  }

  /** The target is at least one and never above the electorate. */
  lemma TargetWithin(params: SetupParams, level: Level, n: nat)
    requires ValidParams(params) && 0 < n < U64
    ensures 1 <= Max1(MinCount(SignatureBp(params, level), n)) <= n
  {
    MinCountExact(SignatureBp(params, level), n);
  }

  lemma PublishedProposal(t: Tables, u: Tables, env: Env, i: Id, setup: Id)
    requires PublishedAs(t, u, env, i, setup) && BooksOk(t) && ProposalOk(t, i) && SetupsOk(t.setups) && Sane(env)
    ensures ProposalOk(u, i)
  {
    assert VersionOk(t.setups, setup) && ValidParams(t.setups[setup].params);
    assert t.next !in t.snapshots;
    hide BooksOk, SetupsOk, VersionOk;
    var p := t.proposals[i];
    TargetWithin(t.setups[setup].params, t.catalog[p.jurisdiction].level, |Eligible(env, p.jurisdiction)|);
    hide ValidParams, MinCount, Rules, SignatureBp;
  }

  lemma PublishedTrail(t: Tables, u: Tables, env: Env, i: Id, setup: Id)
    requires PublishedAs(t, u, env, i, setup) && TrailOk(t) && GrantsOk(t) && ProposalOk(t, i)
    ensures TrailOk(u) && GrantsOk(u)
  {
    NoBallots(t.ballots, i);
    assert t.proposals[i].count == 0;
    hide ProposalOk;
    var e := u.trail[|t.trail|];
    assert u.trail == t.trail + [e];
    TrailKept(t, u, e, i);
    Appended(t.trail, e, i);
  }

  lemma {:induction false} NoBallots(bs: seq<Ballot>, i: Id)
    requires forall k :: 0 <= k < |bs| ==> bs[k].proposal != i
    ensures NBallots(bs, i) == 0
  {
    if bs != [] {
      NoBallots(bs[..|bs| - 1], i);
    }
  }

  lemma PublishKeeps(t: Tables, env: Env, actor: Actor, i: Id, key: Option<string>)
    requires Valid(t) && Sane(env) && PublishTx(t, env, actor, i, key).Ok?
    ensures Valid(PublishTx(t, env, actor, i, key).value.0)
  {
    var u := PublishTx(t, env, actor, i, key).value.0;
    PublishDelta(t, env, actor, i, key);
    if u != t {
      var setup := EffectiveSetup(t, t.proposals[i].jurisdiction).value;
      PublishedKeeps(t, u, env, i, setup);
    }
  }

  lemma PublishedFrom(t: Tables, u: Tables, env: Env, i: Id, setup: Id)
    requires ProposalsOk(t) && PublishedAs(t, u, env, i, setup)
    ensures u.catalog == t.catalog && i in t.proposals && ProposalOk(t, i)
  {
  }

  lemma PublishedKeeps(t: Tables, u: Tables, env: Env, i: Id, setup: Id)
    requires Valid(t) && Sane(env) && PublishedAs(t, u, env, i, setup)
    ensures Valid(u)
  {
    PublishedFrom(t, u, env, i, setup);
    hide ProposalOk, BooksOk, SnapshotsOk, SetupsOk, PackagesOk, CoverOk, TrailOk, GrantsOk, Forest, Local,
         SameGovernance, ProposalsOk, PublishedAs;
    PublishedStep(t, u, env, i, setup);
    PublishedBooks(t, u, env, i, setup);
    PublishedSnapshots(t, u, env, i, setup);
    PublishedProposal(t, u, env, i, setup);
    PublishedTrail(t, u, env, i, setup);
    OthersKept(t, u, i);
    PackagesKept(t, u);
    CoverKept(t, u);
  }

  // ------------------------------------------------------------ ballots

  ghost predicate Voted(t: Tables, u: Tables, user: Id, i: Id, choice: Choice) {
    && i in t.proposals && t.proposals[i].status.InVoting? && t.proposals[i].voteSnapshot.Some?
    && InSnapshot(t, t.proposals[i].voteSnapshot.value, user) && !HasVoted(t.ballots, i, user)
    && Spent(t, u.grants)
    && var votes := StoredCount(t.ballotCounts, i) + 1;
       u == t.(grants := u.grants, keys := u.keys,
               ballots := t.ballots + [Ballot(i, user, t.proposals[i].voteSnapshot.value, choice)],
               ballotCounts := t.ballotCounts[i := votes],
               trail := t.trail + [VoteCast(i, votes)])
  }

  lemma CastDelta(t: Tables, env: Env, actor: Actor, i: Id, choice: Choice, consent: bool, key: Option<string>)
    requires CastTx(t, env, actor, i, choice, consent, key).Ok?
    ensures var u := CastTx(t, env, actor, i, choice, consent, key).value.0;
            u != t ==> Voted(t, u, actor.user, i, choice)
  {
    var u := CastTx(t, env, actor, i, choice, consent, key).value.0;
    if u != t {
      ConsumeDelta(t, env.now, actor.session, VoteAction(t.proposals[i].kind), i);
    }
  }

  lemma VotedLocal(t: Tables, u: Tables, user: Id, i: Id, choice: Choice)
    requires Voted(t, u, user, i, choice) && SnapshotsOk(t)
    ensures Local(t, u, i)
  {
    hide SnapshotsOk, InSnapshot, HasVoted;
  }

  lemma VotedGovernance(t: Tables, u: Tables, user: Id, i: Id, choice: Choice)
    requires Voted(t, u, user, i, choice) && SnapshotsOk(t)
    ensures SameGovernance(t, u)
  {
    hide SnapshotsOk, InSnapshot, HasVoted;
  }

  lemma VotedSnapshots(t: Tables, u: Tables, user: Id, i: Id, choice: Choice)
    requires Voted(t, u, user, i, choice) && SnapshotsOk(t)
    ensures SnapshotsOk(u)
  {
    hide InSnapshot, HasVoted;
    assert forall s :: s in u.snapshots ==> SnapshotOk(t, s);
  }

  lemma VotedStep(t: Tables, u: Tables, user: Id, i: Id, choice: Choice)
    requires Voted(t, u, user, i, choice) && SnapshotsOk(t)
    ensures Local(t, u, i) && SameGovernance(t, u) && SnapshotsOk(u)
  {
    hide Local, SameGovernance, BooksOk, SnapshotsOk, Voted;
    VotedLocal(t, u, user, i, choice);
    VotedGovernance(t, u, user, i, choice);
    VotedSnapshots(t, u, user, i, choice);
  }

  lemma VotedBooks(t: Tables, u: Tables, user: Id, i: Id, choice: Choice)
    requires Voted(t, u, user, i, choice) && BooksOk(t)
    ensures BooksOk(u)
  {
  }

  lemma VotedProposal(t: Tables, u: Tables, user: Id, i: Id, choice: Choice)
    requires Voted(t, u, user, i, choice) && ProposalOk(t, i)
    ensures ProposalOk(u, i)
  {
    BallotAppended(t.ballots, u.ballots[|t.ballots|], i);
  }

  lemma VotedTrail(t: Tables, u: Tables, user: Id, i: Id, choice: Choice)
    requires Voted(t, u, user, i, choice) && TrailOk(t) && GrantsOk(t)
    requires StoredCount(t.ballotCounts, i) == NBallots(t.ballots, i)
    ensures TrailOk(u) && GrantsOk(u)
  {
    var e := u.trail[|t.trail|];
    assert u.trail == t.trail + [e];
    forall j
      ensures j != i ==> Stored(u, j) == Stored(t, j)
    {
      BallotAppended(t.ballots, u.ballots[|t.ballots|], j);
    }
    BallotAppended(t.ballots, u.ballots[|t.ballots|], i);
    TrailKept(t, u, e, i);
    Appended(t.trail, e, i);
  }

  lemma VotedKeeps(t: Tables, u: Tables, user: Id, i: Id, choice: Choice)
    requires Valid(t) && Voted(t, u, user, i, choice)
    ensures Valid(u)
  {
    assert ProposalOk(t, i);
    assert u.catalog == t.catalog;
    hide ProposalOk, BooksOk, SnapshotsOk, SetupsOk, PackagesOk, CoverOk, TrailOk, GrantsOk, Forest, Local,
         SameGovernance, ProposalsOk, Voted;
    VotedStep(t, u, user, i, choice);
    VotedBooks(t, u, user, i, choice);
    VotedProposal(t, u, user, i, choice);
    VotedTrail(t, u, user, i, choice);
    OthersKept(t, u, i);
    PackagesKept(t, u);
    CoverKept(t, u);
  }

  lemma CastKeeps(t: Tables, env: Env, actor: Actor, i: Id, choice: Choice, consent: bool, key: Option<string>)
    requires Valid(t) && CastTx(t, env, actor, i, choice, consent, key).Ok?
    ensures Valid(CastTx(t, env, actor, i, choice, consent, key).value.0)
  {
    CastDelta(t, env, actor, i, choice, consent, key);
    hide *;
    var u := CastTx(t, env, actor, i, choice, consent, key).value.0;
    if u != t {
      VotedKeeps(t, u, actor.user, i, choice);
    }
  }

  // ------------------------------------------------------------ grants

  lemma GrantLocal(t: Tables, now: int, session: Id, action: Critical, resource: Id)
    requires BooksOk(t)
    ensures var u := GrantTx(t, now, session, action, resource);
            Local(t, u, u.next) && SameGovernance(t, u) && u.next !in u.proposals && u.next !in t.proposals
  {
    hide RefsOk, DistinctBallots;
  }

  lemma GrantBooks(t: Tables, now: int, session: Id, action: Critical, resource: Id)
    requires BooksOk(t) && SnapshotsOk(t)
    ensures var u := GrantTx(t, now, session, action, resource); BooksOk(u) && SnapshotsOk(u)
  {
    var u := GrantTx(t, now, session, action, resource);
    assert forall s :: s in u.snapshots ==> SnapshotOk(t, s);
  }

  lemma GrantStep(t: Tables, now: int, session: Id, action: Critical, resource: Id)
    requires BooksOk(t) && SnapshotsOk(t)
    ensures var u := GrantTx(t, now, session, action, resource);
            && Local(t, u, u.next) && SameGovernance(t, u) && BooksOk(u) && SnapshotsOk(u)
            && u.next !in u.proposals && u.next !in t.proposals
  {
    hide Local, SameGovernance, BooksOk, SnapshotsOk;
    GrantLocal(t, now, session, action, resource);
    GrantBooks(t, now, session, action, resource);
  }

  lemma GrantTrail(t: Tables, now: int, session: Id, action: Critical, resource: Id)
    requires TrailOk(t) && GrantsOk(t) && IdsOk(t)
    ensures var u := GrantTx(t, now, session, action, resource); TrailOk(u) && GrantsOk(u)
  {
    var u := GrantTx(t, now, session, action, resource);
    assert forall j :: Stored(u, j) == Stored(t, j);
    assert t.next !in t.grants;
    assert Consumed(u.grants) == Consumed(t.grants);
  }

  lemma GrantKeeps(t: Tables, now: int, session: Id, action: Critical, resource: Id)
    requires Valid(t)
    ensures Valid(GrantTx(t, now, session, action, resource))
  {
    var u := GrantTx(t, now, session, action, resource);
    GrantTrail(t, now, session, action, resource);
    hide ProposalOk, BooksOk, SnapshotsOk, SetupsOk, PackagesOk, CoverOk, TrailOk, GrantsOk, Forest, Local,
         SameGovernance, ProposalsOk;
    GrantStep(t, now, session, action, resource);
    OthersKept(t, u, u.next);
    PackagesKept(t, u);
    CoverKept(t, u);
  }
}
