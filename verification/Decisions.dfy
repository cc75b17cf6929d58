/** The transactions that change setup packages keep the invariant: ending a proposal,
    saving a draft, starting the plebiscite and closing a vote. */
module Decisions {
  import opened Prelude
  import opened Electoral
  import opened Territory
  import opened Tables
  import opened Transactions
  import opened Integrity
  import opened Preservation

  // ------------------------------------------------------------ packages off the record

  predicate QuietRow(a: Setup, b: Setup) {
    SameTerms(a, b) && b.version == a.version && b.source == a.source
    && (b.status == a.status || (a.status.Proposed? && b.status.SetupRejected?))
  }

  /** No numbered version changes and what is new is a bare proposal. */
  ghost predicate Quiet(s: map<Id, Setup>, r: map<Id, Setup>) {
    && s.Keys <= r.Keys
    && (forall v :: v in s ==> QuietRow(s[v], r[v]))
    && (forall v :: v in r && v !in s ==> r[v].status.Proposed? && r[v].version.None? && ValidParams(r[v].params))
  }

  lemma QuietVersions(s: map<Id, Setup>, r: map<Id, Setup>, j: Id)
    requires Quiet(s, r)
    ensures Versions(r, j) == Versions(s, j)
    ensures HasAdopted(r, j) == HasAdopted(s, j)
  {
    forall n | n in Versions(s, j)
      ensures n in Versions(r, j)
    {
      var v :| v in s && s[v].jurisdiction == j && s[v].version == Some(n);
      assert QuietRow(s[v], r[v]);
    }
    forall n | n in Versions(r, j)
      ensures n in Versions(s, j)
    {
      var v :| v in r && r[v].jurisdiction == j && r[v].version == Some(n);
      assert v in s && QuietRow(s[v], r[v]);
    }
    forall v
      ensures IsAdopted(r, j, v) == IsAdopted(s, j, v)
    {
      assert v in s ==> QuietRow(s[v], r[v]);
    }
  }

  lemma QuietSetups(s: map<Id, Setup>, r: map<Id, Setup>)
    requires SetupsOk(s) && Quiet(s, r)
    ensures SetupsOk(r)
  {
    forall v | v in r
      ensures VersionOk(r, v)
    {
      QuietVersions(s, r, r[v].jurisdiction);
      assert v in s ==> VersionOk(s, v) && QuietRow(s[v], r[v]);
    }
    forall v, w | v in r && w in r && v != w && Rivals(r[v], r[w])
      ensures r[v].version != r[w].version
    {
      assert v in s && QuietRow(s[v], r[v]);
      if w in s {
        assert QuietRow(s[w], r[w]) && Rivals(s[v], s[w]);
      }
    }
  }

  lemma QuietCover(t: Tables, u: Tables, j: Id)
    requires u.catalog == t.catalog && Quiet(t.setups, u.setups)
    ensures Covered(u, j) == Covered(t, j)
  {
    forall n
      ensures HitAt(u, j, n) == HitAt(t, j, n)
    {
      if Up(t.catalog, j, n).Some? {
        QuietVersions(t.setups, u.setups, Up(t.catalog, j, n).value);
      }
    }
  }

  lemma RejectedIsQuiet(s: map<Id, Setup>, package: Option<Id>)
    ensures Quiet(s, Rejection(s, package)) && Rejection(s, package).Keys == s.Keys
  {
  }

  // ------------------------------------------------------------ ending a proposal

  predicate EndEvent(e: Event, i: Id, from: Status, to: Status) {
    e == PhaseChanged(i, from, to)
    || (to.Archived? && (e == ProposalWithdrawn(i, from) || e == ProposalArchived(i, from)))
  }

  /** Expiry, withdrawal or archiving: the row closes and its package is rejected. */
  ghost predicate Ended(t: Tables, u: Tables, i: Id, to: Status) {
    && i in t.proposals && i in u.proposals
    && var p := t.proposals[i];
       var q := u.proposals[i];
       && (p.status.Collecting? || (to.Archived? && (p.status.InDebate? || IsTerminal(p.status))))
       && (to.Archived? || to.Expired?)
       && RowCheck(q) && q == p.(status := to, archivedAt := q.archivedAt, closedAt := q.closedAt)
       && |u.trail| == |t.trail| + 1 && EndEvent(u.trail[|t.trail|], i, p.status, to)
       && u == t.(proposals := t.proposals[i := q], setups := Rejection(t.setups, p.proposedSetup),
                  trail := t.trail + [u.trail[|t.trail|]])
  }

  lemma EndedLocal(t: Tables, u: Tables, i: Id, to: Status)
    requires Ended(t, u, i, to)
    ensures Local(t, u, i) && Quiet(t.setups, u.setups) && u.setups.Keys == t.setups.Keys && u.results == t.results
  {
    RejectedIsQuiet(t.setups, t.proposals[i].proposedSetup);
    hide Rejection, RowCheck, EndEvent, IsTerminal;
    assert forall v :: v in t.setups ==> QuietRow(t.setups[v], u.setups[v]);
  }

  lemma EndedBooks(t: Tables, u: Tables, i: Id, to: Status)
    requires Ended(t, u, i, to) && BooksOk(t) && SnapshotsOk(t)
    ensures BooksOk(u) && SnapshotsOk(u)
  {
    assert forall s :: s in u.snapshots ==> SnapshotOk(t, s);
  }

  lemma EndedProposal(t: Tables, u: Tables, i: Id, to: Status)
    requires Ended(t, u, i, to) && ProposalOk(t, i)
    ensures ProposalOk(u, i)
  {
    EndedRows(t, u, i, to);
    hide Ended, ValidParams, Rules, ComputeResult, Signers, NBallots, TallyOf, BallotsInside;
    assert BallotsInside(u, i, u.proposals[i]) by { EndedBallots(t, u, i); }
  }

  /** What ending a proposal leaves as it was, and its row. */
  ghost predicate RowEnded(t: Tables, u: Tables, i: Id, to: Status) {
    && i in t.proposals && i in u.proposals
    && u.signatures == t.signatures && u.snapshots == t.snapshots && u.ballots == t.ballots
    && u.ballotCounts == t.ballotCounts && u.results == t.results
    && (forall v :: v in t.setups ==> v in u.setups && SameTerms(t.setups[v], u.setups[v]))
    && var p, q := t.proposals[i], u.proposals[i];
       && (p.status.Collecting? || (to.Archived? && (p.status.InDebate? || IsTerminal(p.status))))
       && (to.Archived? || to.Expired?)
       && RowCheck(q) && q == p.(status := to, archivedAt := q.archivedAt, closedAt := q.closedAt)
  }

  lemma EndedRows(t: Tables, u: Tables, i: Id, to: Status)
    requires Ended(t, u, i, to)
    ensures RowEnded(t, u, i, to)
  {
    RejectedIsQuiet(t.setups, t.proposals[i].proposedSetup);
    hide Rejection, EndEvent, RowCheck, IsTerminal;
    assert forall v :: v in t.setups ==> QuietRow(t.setups[v], u.setups[v]);
  }

  lemma EndedBallots(t: Tables, u: Tables, i: Id)
    requires i in t.proposals && i in u.proposals && u.ballots == t.ballots && u.snapshots == t.snapshots
    requires u.proposals[i].voteSnapshot == t.proposals[i].voteSnapshot && BallotsInside(t, i, t.proposals[i])
    ensures BallotsInside(u, i, u.proposals[i])
  {
  }

  lemma EndedPackage(t: Tables, u: Tables, i: Id, to: Status, j: Id)
    requires Ended(t, u, i, to) && j in t.proposals && PackageOk(t, j) && PackageOk(t, i)
    requires IsDecided(t.proposals[i].status) ==> i in t.results
    requires j != i && t.proposals[j].proposedSetup.Some? ==>
               t.proposals[j].proposedSetup != t.proposals[i].proposedSetup
    ensures j in u.proposals && PackageOk(u, j)
  {
    hide EndEvent, RowCheck;
  }

  lemma EndedPackages(t: Tables, u: Tables, i: Id, to: Status)
    requires Ended(t, u, i, to) && PackagesOk(t)
    requires IsDecided(t.proposals[i].status) ==> i in t.results
    ensures PackagesOk(u)
  {
    EndedLinks(t, u, i, to);
    hide Ended, PackageOk;
    forall j | j in u.proposals
      ensures PackageOk(u, j)
    {
      EndedPackage(t, u, i, to, j);
    }
  }

  lemma EndedLinks(t: Tables, u: Tables, i: Id, to: Status)
    requires Ended(t, u, i, to)
    ensures u.proposals.Keys == t.proposals.Keys && u.results == t.results && u.setups.Keys == t.setups.Keys
    ensures forall j :: j in t.proposals ==> u.proposals[j].proposedSetup == t.proposals[j].proposedSetup
    ensures forall v :: v in t.setups ==>
              u.setups[v].version == t.setups[v].version && u.setups[v].source == t.setups[v].source
  {
    RejectedIsQuiet(t.setups, t.proposals[i].proposedSetup);
    hide Rejection, EndEvent, RowCheck;
    assert forall v :: v in t.setups ==> QuietRow(t.setups[v], u.setups[v]);
  }

  predicate SameSeat(p: Proposal, q: Proposal) {
    q.kind == p.kind && q.jurisdiction == p.jurisdiction && (q.status.InVoting? ==> p.status.InVoting?)
  }

  ghost predicate Seated(t: Tables, u: Tables, i: Id)
    requires i in u.proposals
  {
    || (i in t.proposals && SameSeat(t.proposals[i], u.proposals[i]))
    || (!u.proposals[i].kind.InitialSetup? && Covered(t, u.proposals[i].jurisdiction))
  }

  ghost predicate QuietStep(t: Tables, u: Tables) {
    && u.catalog == t.catalog && Quiet(t.setups, u.setups) && u.results == t.results
    && forall i :: i in u.proposals ==> Seated(t, u, i)
  }

  lemma QuietHeirs(s: map<Id, Setup>, r: map<Id, Setup>)
    requires Quiet(s, r) && HeirsOk(s)
    ensures HeirsOk(r)
  {
    hide HasAdopted;
    forall v | v in r && Numbered(r[v].status)
      ensures HasAdopted(r, r[v].jurisdiction)
    {
      assert v in s && QuietRow(s[v], r[v]);
      QuietVersions(s, r, s[v].jurisdiction);
    }
  }

  lemma QuietLaws(t: Tables, u: Tables)
    requires QuietStep(t, u) && LawsCovered(t) && VotesUncovered(t)
    ensures LawsCovered(u) && VotesUncovered(u)
  {
    hide Quiet, Covered;
    forall i | i in u.proposals
      ensures !Plebiscite(u, i) ==> Covered(u, u.proposals[i].jurisdiction)
      ensures Plebiscite(u, i) && u.proposals[i].status.InVoting? ==> !Covered(u, u.proposals[i].jurisdiction)
    {
      assert Seated(t, u, i);
      QuietCover(t, u, u.proposals[i].jurisdiction);
    }
  }

  /** Coverage only looks at numbered versions, so quiet steps keep it. */
  lemma QuietCoverKept(t: Tables, u: Tables)
    requires QuietStep(t, u) && CoverOk(t)
    ensures CoverOk(u)
  {
    QuietHeirs(t.setups, u.setups);
    QuietLaws(t, u);
    assert forall i :: i in u.proposals ==> Seated(t, u, i);
    hide Covered, Quiet, HasAdopted, LawsCovered, VotesUncovered, HeirsOk;
  }

  lemma EndedCover(t: Tables, u: Tables, i: Id, to: Status)
    requires Ended(t, u, i, to) && CoverOk(t)
    ensures CoverOk(u)
  {
    RejectedIsQuiet(t.setups, t.proposals[i].proposedSetup);
    hide Rejection, EndEvent, RowCheck, CoverOk, Quiet, Covered;
    assert forall k :: k in u.proposals ==> Seated(t, u, k);
    QuietCoverKept(t, u);
  }

  lemma EndedTrail(t: Tables, u: Tables, i: Id, to: Status)
    requires Ended(t, u, i, to) && TrailOk(t) && GrantsOk(t)
    ensures TrailOk(u) && GrantsOk(u)
  {
    var e := u.trail[|t.trail|];
    TrailKept(t, u, e, i);
    Appended(t.trail, e, i);
  }

  lemma EndedFrom(t: Tables, u: Tables, i: Id, to: Status)
    requires ProposalsOk(t) && Ended(t, u, i, to)
    ensures u.catalog == t.catalog && i in t.proposals && ProposalOk(t, i)
    ensures IsDecided(t.proposals[i].status) ==> i in t.results
  {
    assert ProposalOk(t, i);
  }

  lemma EndedKeeps(t: Tables, u: Tables, i: Id, to: Status)
    requires Valid(t) && Ended(t, u, i, to)
    ensures Valid(u)
  {
    hide ProposalOk, BooksOk, SnapshotsOk, SetupsOk, PackagesOk, CoverOk, TrailOk, GrantsOk, Forest, Local,
         ProposalsOk, Ended, Quiet;
    EndedFrom(t, u, i, to);
    EndedLocal(t, u, i, to);
    EndedBooks(t, u, i, to);
    EndedProposal(t, u, i, to);
    OthersKept(t, u, i);
    QuietSetups(t.setups, u.setups);
    EndedPackages(t, u, i, to);
    EndedCover(t, u, i, to);
    EndedTrail(t, u, i, to);
  }

  lemma ArchiveRowDelta(t: Tables, env: Env, i: Id, p: Proposal, e: Event)
    requires i in t.proposals && t.proposals[i] == p && RowCheck(p)
    requires e == ProposalWithdrawn(i, p.status) || e == ProposalArchived(i, p.status)
    requires ArchiveRow(t, env, i, p, e).Ok? && (p.status.Draft? || p.status.Collecting? || IsTerminal(p.status))
    ensures Ended(t, ArchiveRow(t, env, i, p, e).value, i, Archived)
  {
    var u := ArchiveRow(t, env, i, p, e).value;
    RejectedIsQuiet(t.setups, p.proposedSetup);
    assert u.trail == t.trail + [e];
  }

  lemma WithdrawKeeps(t: Tables, env: Env, actor: Actor, i: Id)
    requires Valid(t) && WithdrawTx(t, env, actor, i).Ok?
    ensures Valid(WithdrawTx(t, env, actor, i).value)
  {
    hide Valid, Ended, ArchiveRow, CollectionOk, VoteOk;
    RowIsOk(t, i);
    var p := t.proposals[i];
    ArchiveRowDelta(t, env, i, p, ProposalWithdrawn(i, p.status));
    EndedKeeps(t, WithdrawTx(t, env, actor, i).value, i, Archived);
  }

  lemma ArchiveKeeps(t: Tables, env: Env, actor: Actor, i: Id)
    requires Valid(t) && ArchiveTx(t, env, actor, i).Ok?
    ensures Valid(ArchiveTx(t, env, actor, i).value)
  {
    hide Valid, Ended, ArchiveRow, CollectionOk, VoteOk;
    RowIsOk(t, i);
    var p := t.proposals[i];
    ArchiveRowDelta(t, env, i, p, ProposalArchived(i, p.status));
    EndedKeeps(t, ArchiveTx(t, env, actor, i).value, i, Archived);
  }

  // ------------------------------------------------------------ deadlines

  lemma DebateReady(t: Tables, i: Id)
    requires i in t.proposals && t.proposals[i].status.InDebate? && ProposalOk(t, i)
    ensures ReadyFor(t, i, t.proposals[i])
  {
  }

  lemma DebatePending(t: Tables, i: Id)
    requires Valid(t) && i in t.proposals && t.proposals[i].status.InDebate?
    ensures Pending(t, i)
  {
    assert ProposalOk(t, i);
    DebateReady(t, i);
    hide ProposalOk, ReadyFor;
  }

  lemma EndPhaseDelta(t: Tables, i: Id, row: Proposal)
    requires i in t.proposals && EndPhase(t, i, row).Ok? && (row.status.Expired? || row.status.Archived?)
    requires var p := t.proposals[i];
             && (p.status.Collecting? || (p.status.InDebate? && row.status.Archived?))
             && row == p.(status := row.status, archivedAt := row.archivedAt, closedAt := row.closedAt)
    ensures Ended(t, EndPhase(t, i, row).value, i, row.status)
  {
    var u := EndPhase(t, i, row).value;
    assert u.trail == t.trail + [PhaseChanged(i, t.proposals[i].status, row.status)];
    hide Rejection;
  }

  /** A due collection expires; a due debate opens its vote or, with nobody left to
      vote, is archived. */
  lemma AdvanceDelta(t: Tables, env: Env, i: Id)
    requires AdvanceTx(t, env, i).Ok?
    ensures var (u, to) := AdvanceTx(t, env, i).value;
            && (to.None? ==> u == t)
            && (to.Some? ==> i in t.proposals && DeadlinePassed(t.proposals[i], env.now))
            && (to == Some(InVoting) ==>
                  t.proposals[i].status.InDebate? && OpenVoting(t, env, i, t.proposals[i]).Ok?
                  && u == OpenVoting(t, env, i, t.proposals[i]).value)
            && (to.Some? && to.value != InVoting ==> Ended(t, u, i, to.value))
  {
    hide OpenVoting, EndPhase, Ended;
    if i in t.proposals && DeadlinePassed(t.proposals[i], env.now) {
      var p := t.proposals[i];
      if p.status.Collecting? {
        EndPhaseDelta(t, i, p.(status := Expired, closedAt := Some(env.now)));
      } else if OpenVoting(t, env, i, p).Err? {
        EndPhaseDelta(t, i, p.(status := Archived, archivedAt := Some(env.now), closedAt := Some(env.now)));
      }
    }
  }

  lemma AdvanceKeeps(t: Tables, env: Env, i: Id)
    requires Valid(t) && Sane(env) && AdvanceTx(t, env, i).Ok?
    ensures Valid(AdvanceTx(t, env, i).value.0)
  {
    AdvanceDelta(t, env, i);
    hide *;
    var (u, to) := AdvanceTx(t, env, i).value;
    if to == Some(InVoting) {
      DebatePending(t, i);
      OpenVotingDelta(t, env, i, t.proposals[i]);
      VotingKeeps(t, u, env, i, EffectiveSetup(t, t.proposals[i].jurisdiction).value);
    } else if to.Some? {
      EndedKeeps(t, u, i, to.value);
    }
  }
}
