/** Saving a draft and starting the initial plebiscite keep the invariant. */
module Drafting {
  import opened Prelude
  import opened Electoral
  import opened Territory
  import opened Tables
  import opened Transactions
  import opened Integrity
  import opened Preservation
  import opened Decisions

  // ------------------------------------------------------------ drafts

  /** A new row, or the author's draft rewritten with its old package rejected. */
  ghost predicate Drafted(t: Tables, u: Tables, i: Id, p: Proposal, kind: Kind, j: Id, package: Option<SetupParams>) {
    && (if i in t.proposals then t.proposals[i] == p
        else i == t.next && p.proposedSetup.None? && p == BlankDraft(p.kind, p.jurisdiction, p.author))
    && p.status.Draft? && RowCheck(p)
    && CitizenCreatable(kind) && (kind.SetupChange? <==> package.Some?)
    && (package.Some? ==> ValidParams(package.value))
    && Covered(t, j)
    && var k := if i in t.proposals then t.next else t.next + 1;
       var s := Rejection(t.setups, p.proposedSetup);
       u == t.(next := if package.Some? then k + 1 else k,
               proposals := t.proposals[i := p.(kind := kind, jurisdiction := j,
                                                proposedSetup := if package.Some? then Some(k) else None)],
               setups := if package.Some? then s[k := Setup(j, None, Proposed, None, package.value)] else s)
  }

  ghost function PreviousRow(t: Tables, i: Id, actor: Actor, kind: Kind, j: Id): Proposal {
    if i in t.proposals then t.proposals[i] else BlankDraft(kind, j, actor.user)
  }

  /** Writing the row, with a new package or none, over the previous one. */
  lemma RowDrafted(t: Tables, t1: Tables, i: Id, p: Proposal, kind: Kind, j: Id, package: Option<SetupParams>,
                   u: Tables)
    requires if i in t.proposals then t.proposals[i] == p
             else i == t.next && p == BlankDraft(p.kind, p.jurisdiction, p.author)
    requires p.status.Draft? && CitizenCreatable(kind) && (kind.SetupChange? <==> package.Some?) && Covered(t, j)
    requires t1 == t.(next := if i in t.proposals then t.next else t.next + 1, proposals := t.proposals[i := p],
                      setups := Rejection(t.setups, p.proposedSetup))
    requires WriteDraft(t1, i, kind, j, package) == Ok(u)
    ensures Drafted(t, u, i, p, kind, j, package)
  {
    hide Rejection, ValidParams, Covered;
  }

  lemma SaveDraftDelta(t: Tables, env: Env, actor: Actor, id: Option<Id>, input: DraftInput)
    requires IdsOk(t) && SaveDraftTx(t, env, actor, id, input).Ok?
    ensures var (u, i) := SaveDraftTx(t, env, actor, id, input).value;
            var j := AuthorJurisdiction(actor, input.level);
            && DraftPackage(input).Ok?
            && Drafted(t, u, i, PreviousRow(t, i, actor, input.kind, j), input.kind, j, DraftPackage(input).value)
  {
    assert t.next !in t.proposals;
    hide Rejection, ValidParams, Covered, IdsOk, AuthorJurisdiction, OwnDraft, Drafted, WriteDraft;
    var j := AuthorJurisdiction(actor, input.level);
    var (u, i) := SaveDraftTx(t, env, actor, id, input).value;
    OwnDraftIs(t, actor, id, input.kind, j);
    RowDrafted(t, OwnDraft(t, actor, id, input.kind, j).value.0, i, PreviousRow(t, i, actor, input.kind, j),
               input.kind, j,
               DraftPackage(input).value, u);
  }

  /** The row to rewrite, with its old package rejected, or a blank new one. */
  lemma OwnDraftIs(t: Tables, actor: Actor, id: Option<Id>, kind: Kind, j: Id)
    requires OwnDraft(t, actor, id, kind, j).Ok? && t.next !in t.proposals
    ensures var (u, i) := OwnDraft(t, actor, id, kind, j).value;
            var p := PreviousRow(t, i, actor, kind, j);
            && p.status.Draft? && i in u.proposals && u.proposals[i] == p
            && (i !in t.proposals ==> i == t.next && p == BlankDraft(kind, j, actor.user) && RowCheck(p))
            && u == t.(next := if i in t.proposals then t.next else t.next + 1, proposals := t.proposals[i := p],
                       setups := Rejection(t.setups, p.proposedSetup))
  {
    if id.Some? {
      assert t.proposals == t.proposals[id.value := t.proposals[id.value]];
    }
  }

  lemma DraftedQuiet(t: Tables, u: Tables, i: Id, p: Proposal, kind: Kind, j: Id, package: Option<SetupParams>)
    requires Drafted(t, u, i, p, kind, j, package) && IdsOk(t)
    ensures Quiet(t.setups, u.setups)
  {
    RejectedIsQuiet(t.setups, p.proposedSetup);
    assert t.next !in t.setups && t.next + 1 !in t.setups;
    hide Rejection, ValidParams, Covered, IdsOk;
  }

  lemma DraftedLocal(t: Tables, u: Tables, i: Id, p: Proposal, kind: Kind, j: Id, package: Option<SetupParams>)
    requires Drafted(t, u, i, p, kind, j, package) && Quiet(t.setups, u.setups)
    ensures Local(t, u, i)
  {
    hide Rejection, ValidParams, Covered;
    assert forall v :: v in t.setups ==> QuietRow(t.setups[v], u.setups[v]);
  }

  lemma DraftedBooks(t: Tables, u: Tables, i: Id, p: Proposal, kind: Kind, j: Id, package: Option<SetupParams>)
    requires Drafted(t, u, i, p, kind, j, package) && BooksOk(t)
    ensures BooksOk(u)
  {
    RejectedIsQuiet(t.setups, p.proposedSetup);
    hide Rejection, ValidParams, Covered, Quiet, DistinctBallots;
    assert t.proposals.Keys <= u.proposals.Keys;
  }

  lemma DraftedSnapshots(t: Tables, u: Tables, i: Id, p: Proposal, kind: Kind, j: Id, package: Option<SetupParams>)
    requires Drafted(t, u, i, p, kind, j, package) && SnapshotsOk(t)
    ensures SnapshotsOk(u)
  {
    hide Rejection, ValidParams, Covered;
    assert forall s :: s in u.snapshots ==> SnapshotOk(t, s);
  }

  /** Nothing refers to a proposal that is not there. */
  lemma Absent(t: Tables, i: Id)
    requires RefsOk(t) && i !in t.proposals
    ensures Signers(t.signatures, i) == {} && StoredCount(t.ballotCounts, i) == 0 && i !in t.results
    ensures NBallots(t.ballots, i) == 0
    ensures forall k :: 0 <= k < |t.ballots| ==> t.ballots[k].proposal != i
  {
    NoBallots(t.ballots, i);
  }

  lemma DraftedProposal(t: Tables, u: Tables, i: Id, p: Proposal, kind: Kind, j: Id, package: Option<SetupParams>)
    requires Drafted(t, u, i, p, kind, j, package) && RefsOk(t) && (i in t.proposals ==> ProposalOk(t, i))
    ensures ProposalOk(u, i)
  {
    if i !in t.proposals {
      Absent(t, i);
    }
    hide Rejection, ValidParams, Covered, RefsOk, ComputeResult, Rules, TallyOf;
  }

  lemma DraftedPackage(t: Tables, u: Tables, i: Id, p: Proposal, kind: Kind, j: Id, package: Option<SetupParams>, k: Id)
    requires Drafted(t, u, i, p, kind, j, package) && k in u.proposals && IdsOk(t)
    requires i !in t.results
    requires k != i ==>
               && PackageOk(t, k)
               && (t.proposals[k].proposedSetup.Some? ==> t.proposals[k].proposedSetup != p.proposedSetup)
    ensures PackageOk(u, k)
  {
    assert t.next !in t.setups && t.next + 1 !in t.setups;
    hide ValidParams, Covered, IdsOk;
  }

  /** Sources of numbered versions keep their package: a draft is never one. */
  lemma DraftedSource(t: Tables, u: Tables, i: Id, p: Proposal, kind: Kind, j: Id, package: Option<SetupParams>, v: Id)
    requires Drafted(t, u, i, p, kind, j, package) && Quiet(t.setups, u.setups) && i !in t.results
    requires v in u.setups && u.setups[v].version.Some?
    requires v in t.setups && t.setups[v].version.Some? ==>
               && t.setups[v].source.Some? && t.setups[v].source.value in t.proposals
               && t.proposals[t.setups[v].source.value].proposedSetup == Some(v)
               && WasApproved(t, t.setups[v].source.value)
    ensures u.setups[v].source.Some? && u.setups[v].source.value in u.proposals
    ensures u.proposals[u.setups[v].source.value].proposedSetup == Some(v) && WasApproved(u, u.setups[v].source.value)
  {
    hide Rejection, ValidParams, Covered;
    assert v in t.setups && QuietRow(t.setups[v], u.setups[v]);
  }

  /** A new package is nobody else's. */
  lemma DraftedApart(t: Tables, u: Tables, i: Id, p: Proposal, kind: Kind, j: Id, package: Option<SetupParams>, k: Id)
    requires Drafted(t, u, i, p, kind, j, package) && IdsOk(t) && k in t.proposals && k != i && PackageOk(t, k)
    ensures k in u.proposals && u.proposals[k].proposedSetup == t.proposals[k].proposedSetup
    ensures t.proposals[k].proposedSetup.Some? ==> u.proposals[i].proposedSetup != t.proposals[k].proposedSetup
  {
    assert t.next !in t.setups && t.next + 1 !in t.setups;
    hide Rejection, ValidParams, Covered, IdsOk;
  }

  lemma DraftedKeys(t: Tables, u: Tables, i: Id, p: Proposal, kind: Kind, j: Id, package: Option<SetupParams>)
    requires Drafted(t, u, i, p, kind, j, package)
    ensures u.proposals.Keys == t.proposals.Keys + {i} && (i in t.proposals ==> t.proposals[i] == p)
    ensures i !in t.proposals ==> p.proposedSetup.None?
  {
    hide Rejection, ValidParams, Covered;
  }

  lemma DraftedPackages(t: Tables, u: Tables, i: Id, p: Proposal, kind: Kind, j: Id, package: Option<SetupParams>)
    requires Drafted(t, u, i, p, kind, j, package) && IdsOk(t) && PackagesOk(t) && Quiet(t.setups, u.setups)
    requires i !in t.results
    ensures PackagesOk(u)
  {
    hide Drafted, IdsOk, Quiet, PackageOk, WasApproved;
    DraftedKeys(t, u, i, p, kind, j, package);
    forall k | k in u.proposals
      ensures PackageOk(u, k)
      ensures k != i ==> k in t.proposals && u.proposals[k].proposedSetup == t.proposals[k].proposedSetup
      ensures k != i && t.proposals[k].proposedSetup.Some? ==>
                u.proposals[i].proposedSetup != t.proposals[k].proposedSetup
    {
      DraftedPackage(t, u, i, p, kind, j, package, k);
      if k != i {
        DraftedApart(t, u, i, p, kind, j, package, k);
      }
    }
    forall v | v in u.setups && u.setups[v].version.Some?
      ensures u.setups[v].source.Some? && u.setups[v].source.value in u.proposals
      ensures u.proposals[u.setups[v].source.value].proposedSetup == Some(v) && WasApproved(u, u.setups[v].source.value)
    {
      DraftedSource(t, u, i, p, kind, j, package, v);
    }
  }

  lemma DraftedCover(t: Tables, u: Tables, i: Id, p: Proposal, kind: Kind, j: Id, package: Option<SetupParams>)
    requires Drafted(t, u, i, p, kind, j, package) && CoverOk(t) && Quiet(t.setups, u.setups)
    ensures CoverOk(u)
  {
    hide Rejection, RowCheck, CoverOk, Quiet, Covered, ValidParams;
    assert forall k :: k in u.proposals ==> Seated(t, u, k);
    QuietCoverKept(t, u);
  }

  lemma DraftedTrail(t: Tables, u: Tables, i: Id, p: Proposal, kind: Kind, j: Id, package: Option<SetupParams>)
    requires Drafted(t, u, i, p, kind, j, package) && TrailOk(t) && GrantsOk(t)
    ensures TrailOk(u) && GrantsOk(u)
  {
    hide Rejection, ValidParams, Covered;
    assert forall k :: Stored(u, k) == Stored(t, k);
  }

  /** A draft has no result. */
  lemma DraftedFrom(t: Tables, u: Tables, i: Id, p: Proposal, kind: Kind, j: Id, package: Option<SetupParams>)
    requires Drafted(t, u, i, p, kind, j, package) && RefsOk(t) && (i in t.proposals ==> ProposalOk(t, i))
    ensures u.catalog == t.catalog && i !in t.results
  {
    assert i in t.proposals ==> Shape(t.proposals[i]) && VoteOk(t, i, t.proposals[i]);
    hide ProposalOk, Rejection, RowCheck, ValidParams, Covered, CollectionOk, ResultOk, BallotsInside;
  }

  lemma DraftedKeeps(t: Tables, u: Tables, i: Id, p: Proposal, kind: Kind, j: Id, package: Option<SetupParams>)
    requires Valid(t) && Drafted(t, u, i, p, kind, j, package)
    ensures Valid(u)
  {
    assert i in t.proposals ==> ProposalOk(t, i);
    assert IdsOk(t) && RefsOk(t);
    hide ProposalOk, BooksOk, SnapshotsOk, SetupsOk, PackagesOk, CoverOk, TrailOk, GrantsOk, Forest, Local,
         ProposalsOk, Drafted, Quiet, IdsOk, RefsOk;
    DraftedFrom(t, u, i, p, kind, j, package);
    DraftedQuiet(t, u, i, p, kind, j, package);
    DraftedLocal(t, u, i, p, kind, j, package);
    DraftedBooks(t, u, i, p, kind, j, package);
    DraftedSnapshots(t, u, i, p, kind, j, package);
    DraftedProposal(t, u, i, p, kind, j, package);
    OthersKept(t, u, i);
    QuietSetups(t.setups, u.setups);
    DraftedPackages(t, u, i, p, kind, j, package);
    DraftedCover(t, u, i, p, kind, j, package);
    DraftedTrail(t, u, i, p, kind, j, package);
  }

  lemma SaveDraftKeeps(t: Tables, env: Env, actor: Actor, id: Option<Id>, input: DraftInput)
    requires Valid(t) && SaveDraftTx(t, env, actor, id, input).Ok?
    ensures Valid(SaveDraftTx(t, env, actor, id, input).value.0)
  {
    assert IdsOk(t);
    hide *;
    var (u, i) := SaveDraftTx(t, env, actor, id, input).value;
    SaveDraftDelta(t, env, actor, id, input);
    var j := AuthorJurisdiction(actor, input.level);
    DraftedKeeps(t, u, i, PreviousRow(t, i, actor, input.kind, j), input.kind, j, DraftPackage(input).value);
  }

  // ------------------------------------------------------------ the initial plebiscite

  /** A package, a proposal and its vote appear at once where no setup is in force. */
  ghost predicate Begun(t: Tables, u: Tables, env: Env, user: Id, j: Id, params: SetupParams) {
    && ValidParams(params) && !Covered(t, j) && !PlebisciteOpen(t) && Eligible(env, j) != {}
    && var v, i, s := t.next, t.next + 1, t.next + 2;
       var members := Eligible(env, j);
       u == t.(next := t.next + 3,
               setups := t.setups[v := Setup(j, None, Proposed, None, params)],
               snapshots := t.snapshots[s := Snapshot(i, VotingPhase, j, v, |members|, members)],
               proposals := t.proposals[i := BlankDraft(InitialSetup, j, user).(
                 proposedSetup := Some(v), status := InVoting, publishedAt := Some(env.now),
                 voteSetupVersion := Some(v), voteSnapshot := Some(s),
                 voteEndsAt := Some(env.now + Rules(params, InitialSetup).voteDays * DAY))],
               trail := t.trail + [PhaseChanged(i, Draft, InVoting)])
  }

  lemma StartDelta(t: Tables, env: Env, actor: Actor, params: SetupParams)
    requires StartTx(t, env, actor, params).Ok?
    ensures var (u, i) := StartTx(t, env, actor, params).value;
            i == t.next + 1 && Begun(t, u, env, actor.user, actor.country, params)
  {
    hide ValidParams, Covered, PlebisciteOpen, Rules;
  }

  lemma BegunIds(t: Tables, u: Tables, env: Env, user: Id, j: Id, params: SetupParams)
    requires Begun(t, u, env, user, j, params) && BooksOk(t)
    ensures BooksOk(u)
  {
    hide Covered, DistinctBallots, Rules, PlebisciteOpen, ValidParams;
    assert t.proposals.Keys <= u.proposals.Keys;
  }

  lemma BegunQuiet(t: Tables, u: Tables, env: Env, user: Id, j: Id, params: SetupParams)
    requires Begun(t, u, env, user, j, params) && IdsOk(t)
    ensures Quiet(t.setups, u.setups)
  {
    assert t.next !in t.setups;
    hide Covered, Rules, PlebisciteOpen, IdsOk, ValidParams;
  }

  lemma BegunAround(t: Tables, u: Tables, env: Env, user: Id, j: Id, params: SetupParams)
    requires Begun(t, u, env, user, j, params) && IdsOk(t)
    ensures Local(t, u, t.next + 1)
  {
    assert t.next !in t.setups && t.next + 2 !in t.snapshots && t.next + 1 !in t.proposals;
    hide Covered, Rules, PlebisciteOpen, IdsOk, ValidParams;
  }

  lemma BegunLocal(t: Tables, u: Tables, env: Env, user: Id, j: Id, params: SetupParams)
    requires Begun(t, u, env, user, j, params) && IdsOk(t)
    ensures Local(t, u, t.next + 1) && Quiet(t.setups, u.setups)
  {
    hide Begun, Local, Quiet, IdsOk;
    BegunQuiet(t, u, env, user, j, params);
    BegunAround(t, u, env, user, j, params);
  }

  lemma BegunSnapshots(t: Tables, u: Tables, env: Env, user: Id, j: Id, params: SetupParams)
    requires Begun(t, u, env, user, j, params) && SnapshotsOk(t) && IdsOk(t) && Sane(env)
    ensures SnapshotsOk(u)
  {
    assert t.next + 2 !in t.snapshots && t.next + 1 !in t.proposals;
    forall s | s in u.snapshots
      ensures SnapshotOk(u, s)
    {
      if s != t.next + 2 {
        assert SnapshotOk(t, s);
      }
    }
  }

  lemma BegunProposal(t: Tables, u: Tables, env: Env, user: Id, j: Id, params: SetupParams)
    requires Begun(t, u, env, user, j, params) && BooksOk(t)
    ensures ProposalOk(u, t.next + 1)
  {
    assert t.next + 1 !in t.proposals;
    Absent(t, t.next + 1);
    hide BooksOk, Covered, Rules, ComputeResult;
  }

  lemma BegunPackage(t: Tables, u: Tables, env: Env, user: Id, j: Id, params: SetupParams, k: Id)
    requires Begun(t, u, env, user, j, params) && BooksOk(t) && k in u.proposals
             && (k in t.proposals ==> PackageOk(t, k))
    ensures PackageOk(u, k)
  {
    assert t.next !in t.setups && t.next + 1 !in t.proposals && t.next + 1 !in t.results;
    hide BooksOk, Covered, Rules, ValidParams, PlebisciteOpen;
  }

  lemma BegunPackages(t: Tables, u: Tables, env: Env, user: Id, j: Id, params: SetupParams)
    requires Begun(t, u, env, user, j, params) && BooksOk(t) && PackagesOk(t)
    ensures PackagesOk(u)
  {
    forall k | k in t.proposals
      ensures t.proposals[k].proposedSetup.Some? ==> t.proposals[k].proposedSetup.value in t.setups
    {
      assert PackageOk(t, k);
    }
    assert t.next !in t.setups && t.next + 1 !in t.proposals;
    forall k | k in u.proposals
      ensures PackageOk(u, k)
    {
      BegunPackage(t, u, env, user, j, params, k);
    }
    hide BooksOk, Covered, Rules, ValidParams, PlebisciteOpen, PackageOk;
  }

  lemma BegunLaws(t: Tables, u: Tables, env: Env, user: Id, j: Id, params: SetupParams)
    requires Begun(t, u, env, user, j, params) && LawsCovered(t) && VotesUncovered(t) && IdsOk(t)
             && Quiet(t.setups, u.setups)
    ensures LawsCovered(u) && VotesUncovered(u)
  {
    assert t.next + 1 !in t.proposals;
    hide IdsOk, Covered, Rules, ValidParams, Quiet, PlebisciteOpen;
    forall k
      ensures Covered(u, k) == Covered(t, k)
    {
      QuietCover(t, u, k);
    }
  }

  lemma BegunCover(t: Tables, u: Tables, env: Env, user: Id, j: Id, params: SetupParams)
    requires Begun(t, u, env, user, j, params) && CoverOk(t) && BooksOk(t) && Quiet(t.setups, u.setups)
    ensures CoverOk(u)
  {
    assert t.next + 1 !in t.proposals && t.next + 1 !in t.results;
    QuietHeirs(t.setups, u.setups);
    BegunLaws(t, u, env, user, j, params);
    hide BooksOk, Covered, Rules, ValidParams, Quiet, HeirsOk, LawsCovered, VotesUncovered;
  }

  lemma BegunTrail(t: Tables, u: Tables, env: Env, user: Id, j: Id, params: SetupParams)
    requires Begun(t, u, env, user, j, params) && TrailOk(t) && GrantsOk(t) && BooksOk(t)
    ensures TrailOk(u) && GrantsOk(u)
  {
    var i := t.next + 1;
    assert i !in t.proposals;
    Absent(t, i);
    hide BooksOk, Covered, Rules, ValidParams;
    TrailKept(t, u, PhaseChanged(i, Draft, InVoting), i);
    Appended(t.trail, PhaseChanged(i, Draft, InVoting), i);
  }

  lemma BegunKeeps(t: Tables, u: Tables, env: Env, user: Id, j: Id, params: SetupParams)
    requires Valid(t) && Sane(env) && Begun(t, u, env, user, j, params)
    ensures Valid(u)
  {
    assert u.catalog == t.catalog && IdsOk(t);
    hide ProposalOk, BooksOk, SnapshotsOk, SetupsOk, PackagesOk, CoverOk, TrailOk, GrantsOk, Forest, Local,
         ProposalsOk, Begun, Quiet, IdsOk, RefsOk;
    BegunIds(t, u, env, user, j, params);
    BegunLocal(t, u, env, user, j, params);
    BegunSnapshots(t, u, env, user, j, params);
    BegunProposal(t, u, env, user, j, params);
    OthersKept(t, u, t.next + 1);
    QuietSetups(t.setups, u.setups);
    BegunPackages(t, u, env, user, j, params);
    BegunCover(t, u, env, user, j, params);
    BegunTrail(t, u, env, user, j, params);
  }

  lemma StartKeeps(t: Tables, env: Env, actor: Actor, params: SetupParams)
    requires Valid(t) && Sane(env) && StartTx(t, env, actor, params).Ok?
    ensures Valid(StartTx(t, env, actor, params).value.0)
  {
    hide *;
    StartDelta(t, env, actor, params);
    BegunKeeps(t, StartTx(t, env, actor, params).value.0, env, actor.user, actor.country, params);
  }
}
