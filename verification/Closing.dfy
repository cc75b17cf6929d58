/** Closing a vote keeps the invariant: the result is stored from the final ballots,
    and an approved package becomes the next version of its jurisdiction. */
module Closing {
  import opened Prelude
  import opened Electoral
  import opened Territory
  import opened Tables
  import opened Transactions
  import opened Integrity
  import opened Preservation
  import opened Decisions

  // ------------------------------------------------------------ adoption

  lemma VersionStep(s: map<Id, Setup>, j: Id, n: nat)
    requires SetupsOk(s) && n in Versions(s, j)
    ensures 1 <= n && (n > 1 ==> n - 1 in Versions(s, j))
  {
    var w :| w in s && s[w].jurisdiction == j && s[w].version == Some(n);
    assert VersionOk(s, w);
    hide SetupsOk, Versions, ValidParams;
  }

  /** Numbers have no holes below a used one. */
  lemma {:induction false} VersionsDown(s: map<Id, Setup>, j: Id, n: nat, m: nat)
    requires SetupsOk(s) && m in Versions(s, j) && 1 <= n <= m
    ensures n in Versions(s, j)
    decreases m - n
  {
    hide *;
    if n < m {
      VersionsDown(s, j, n + 1, m);
      VersionStep(s, j, n + 1);
    }
  }

  lemma OwnNumber(s: map<Id, Setup>, v: Id)
    requires SetupsOk(s) && v in s
    ensures s[v].version.None? ==> !s[v].status.Adopted?
    ensures s[v].version.Some? ==>
              && s[v].version.value in Versions(s, s[v].jurisdiction)
              && (s[v].status.Adopted? <==> s[v].version.value + 1 !in Versions(s, s[v].jurisdiction))
  {
    VersionAt(s, v);
    hide SetupsOk, ValidParams, Versions;
    if s[v].version.Some? {
      VersionsHas(s, v);
    }
  }

  lemma VersionsHas(s: map<Id, Setup>, v: Id)
    requires v in s && s[v].version.Some?
    ensures s[v].version.value in Versions(s, s[v].jurisdiction)
  {
  }

  lemma VersionAt(s: map<Id, Setup>, v: Id)
    requires SetupsOk(s) && v in s
    ensures VersionOk(s, v)
  {
    hide VersionOk;
  }

  lemma AdoptedIsLast(s: map<Id, Setup>, v: Id)
    requires SetupsOk(s) && v in s
    ensures s[v].status.Adopted? <==> s[v].version == Some(MaxVersion(s, s[v].jurisdiction))
  {
    hide *;
    OwnNumber(s, v);
    var j := s[v].jurisdiction;
    var k := MaxVersion(s, j);
    if s[v].version.Some? {
      var n := s[v].version.value;
      if n < k {
        VersionsDown(s, j, n + 1, k);
      }
    }
  }

  lemma OneAdopted(setups: map<Id, Setup>, j: Id, v: Id, w: Id)
    requires SetupsOk(setups) && IsAdopted(setups, j, v) && IsAdopted(setups, j, w)
    ensures v == w
  {
    AdoptedIsLast(setups, v);
    AdoptedIsLast(setups, w);
    assert Rivals(setups[v], setups[w]);
    hide VersionOk, Versions, MaxVersion;
  }

  /** The versions of a jurisdiction are exactly 1..k and the adopted one is k. */
  lemma VersionsAreOneToK(s: map<Id, Setup>, j: Id)
    requires SetupsOk(s)
    ensures forall n: nat :: n in Versions(s, j) <==> 1 <= n <= MaxVersion(s, j)
    ensures forall v :: v in s && s[v].jurisdiction == j ==>
              (s[v].status.Adopted? <==> s[v].version == Some(MaxVersion(s, j)))
  {
    hide *;
    var k := MaxVersion(s, j);
    forall n: nat
      ensures n in Versions(s, j) <==> 1 <= n <= k
    {
      if n in Versions(s, j) {
        VersionStep(s, j, n);
      } else if 1 <= n <= k {
        VersionsDown(s, j, n, k);
      }
    }
    forall v | v in s && s[v].jurisdiction == j
      ensures s[v].status.Adopted? <==> s[v].version == Some(k)
    {
      AdoptedIsLast(s, v);
    }
  }

  ghost predicate Adopts(s: map<Id, Setup>, r: map<Id, Setup>, v: Id, source: Id) {
    && v in s && s[v].status.Proposed? && s[v].version.None?
    && r == Adoption(s, v, MaxVersion(s, s[v].jurisdiction) + 1, Some(source))
  }

  lemma AdoptionVersions(s: map<Id, Setup>, r: map<Id, Setup>, v: Id, source: Id, j: Id)
    requires Adopts(s, r, v, source)
    ensures Versions(r, j) == Versions(s, j) + if j == s[v].jurisdiction then {MaxVersion(s, j) + 1} else {}
  {
    forall n | n in Versions(s, j)
      ensures n in Versions(r, j)
    {
      var w :| w in s && s[w].jurisdiction == j && s[w].version == Some(n);
      assert w != v && r[w].version == Some(n) && r[w].jurisdiction == j;
    }
    if j == s[v].jurisdiction {
      assert r[v].version == Some(MaxVersion(s, j) + 1) && r[v].jurisdiction == j;
    }
    forall n | n in Versions(r, j)
      ensures n in Versions(s, j) + if j == s[v].jurisdiction then {MaxVersion(s, j) + 1} else {}
    {
      var w :| w in r && r[w].jurisdiction == j && r[w].version == Some(n);
      assert w != v ==> s[w].version == Some(n) && s[w].jurisdiction == j;
    }
  }

  /** One row after an adoption. */
  lemma AdoptionRow(s: map<Id, Setup>, r: map<Id, Setup>, v: Id, source: Id, w: Id)
    requires Adopts(s, r, v, source) && w in r
    ensures w in s && SameTerms(s[w], r[w])
    ensures w == v ==> r[w].status.Adopted? && r[w].version == Some(MaxVersion(s, s[v].jurisdiction) + 1)
    ensures w != v ==> r[w].version == s[w].version
                       && r[w].status == if IsAdopted(s, s[v].jurisdiction, w) then Superseded else s[w].status
  {
    hide MaxVersion;
  }

  lemma AdoptionVersion(s: map<Id, Setup>, r: map<Id, Setup>, v: Id, source: Id, w: Id)
    requires Adopts(s, r, v, source) && SetupsOk(s) && w in r
    ensures VersionOk(r, w)
  {
    var j := s[w].jurisdiction;
    hide SetupsOk, ValidParams, Versions, MaxVersion, Adoption;
    VersionAt(s, w);
    VersionAt(s, v);
    AdoptionRow(s, r, v, source, w);
    VersionsAreOneToK(s, j);
    AdoptionVersions(s, r, v, source, j);
  }

  lemma AdoptionSetups(s: map<Id, Setup>, r: map<Id, Setup>, v: Id, source: Id)
    requires Adopts(s, r, v, source) && SetupsOk(s)
    ensures SetupsOk(r)
  {
    hide VersionOk, ValidParams;
    forall w | w in r
      ensures VersionOk(r, w)
    {
      AdoptionVersion(s, r, v, source, w);
    }
    forall a, b | a in r && b in r && a != b && Rivals(r[a], r[b])
      ensures r[a].version != r[b].version
    {
      if a != v && b != v {
        assert Rivals(s[a], s[b]);
      } else {
        var w := if a == v then b else a;
        assert s[w].version.Some? ==> s[w].version.value in Versions(s, s[v].jurisdiction);
      }
    }
  }

  lemma AdoptionHas(s: map<Id, Setup>, r: map<Id, Setup>, v: Id, source: Id, j: Id)
    requires Adopts(s, r, v, source)
    ensures HasAdopted(r, j) <==> HasAdopted(s, j) || j == s[v].jurisdiction
  {
    if j == s[v].jurisdiction {
      assert IsAdopted(r, j, v);
    } else {
      assert forall w :: IsAdopted(r, j, w) == IsAdopted(s, j, w);
    }
  }

  lemma AdoptionHeirs(s: map<Id, Setup>, r: map<Id, Setup>, v: Id, source: Id)
    requires Adopts(s, r, v, source) && HeirsOk(s)
    ensures HeirsOk(r)
  {
    forall w | w in r && Numbered(r[w].status)
      ensures HasAdopted(r, r[w].jurisdiction)
    {
      AdoptionHas(s, r, v, source, r[w].jurisdiction);
    }
  }

  /** Coverage never shrinks, and an adoption where a setup already applies extends it
      to nobody new. */
  lemma AdoptionCover(t: Tables, u: Tables, v: Id, source: Id, k: Id)
    requires u.catalog == t.catalog && Adopts(t.setups, u.setups, v, source)
    ensures Covered(t, k) ==> Covered(u, k)
    ensures Covered(u, t.setups[v].jurisdiction)
    ensures Covered(t, t.setups[v].jurisdiction) && Covered(u, k) ==> Covered(t, k)
  {
    var j := t.setups[v].jurisdiction;
    forall n | HitAt(t, k, n)
      ensures HitAt(u, k, n)
    {
      AdoptionHas(t.setups, u.setups, v, source, Up(t.catalog, k, n).value);
    }
    AdoptionHas(t.setups, u.setups, v, source, j);
    assert HitAt(u, j, 0);
    if Covered(t, j) && Covered(u, k) {
      var n: nat :| HitAt(u, k, n);
      var a := Up(t.catalog, k, n).value;
      AdoptionHas(t.setups, u.setups, v, source, a);
      if !HasAdopted(t.setups, a) {
        var m: nat :| HitAt(t, j, m);
        UpCompose(t.catalog, k, n, j, m);
        assert HitAt(t, k, n + m);
      } else {
        assert HitAt(t, k, n);
      }
    }
  }

  // ------------------------------------------------------------ the closed vote

  ghost predicate Counted(t: Tables, i: Id, figures: ResultCalc) {
    && i in t.proposals && t.proposals[i].status.InVoting? && i !in t.results
    && VoteRules(t, t.proposals[i]).Ok?
    && var (electorate, quorumBp, majorityBp) := VoteRules(t, t.proposals[i]).value;
       ComputeResult(TallyOf(t.ballots, i), electorate, quorumBp, majorityBp) == Calc(figures)
  }

  ghost function ResultRow(t: Tables, i: Id, figures: ResultCalc, now: int): VoteResult
    requires Counted(t, i, figures)
  {
    var p := t.proposals[i];
    var (electorate, quorumBp, majorityBp) := VoteRules(t, p).value;
    VoteResult(p.voteSnapshot.value, p.voteSetupVersion.value, electorate, TallyOf(t.ballots, i),
               quorumBp, majorityBp, figures, now)
  }

  ghost predicate Adopting(t: Tables, i: Id, figures: ResultCalc)
    requires i in t.proposals
  {
    t.proposals[i].proposedSetup.Some? && figures.outcome.OApproved?
  }

  ghost predicate Closed(t: Tables, u: Tables, i: Id, figures: ResultCalc, now: int) {
    && Counted(t, i, figures)
    && var p := t.proposals[i];
       var to := figures.outcome.Status();
       var e := PhaseChanged(i, InVoting, to);
       && u == t.(proposals := t.proposals[i := p.(status := to, closedAt := Some(now))],
                  results := t.results[i := ResultRow(t, i, figures, now)],
                  setups := u.setups, trail := u.trail)
       && if Adopting(t, i, figures)
          then
            && Adopts(t.setups, u.setups, p.proposedSetup.value, i)
            && exists version, j ::
                 u.trail == t.trail + [SetupAdopted(p.proposedSetup.value, j, version, Some(i))] + [e]
          else u.setups == Rejection(t.setups, p.proposedSetup) && u.trail == t.trail + [e]
  }

  lemma SettleDelta(t: Tables, i: Id, package: Option<Id>, approved: bool)
    requires Settle(t, i, package, approved).Ok?
    requires package.Some? && package.value in t.setups && t.setups[package.value].status.Proposed? ==>
               t.setups[package.value].version.None?
    ensures var u := Settle(t, i, package, approved).value;
            && u == t.(setups := u.setups, trail := u.trail)
            && if package.Some? && approved
               then
                 && Adopts(t.setups, u.setups, package.value, i)
                 && exists version, j :: u.trail == t.trail + [SetupAdopted(package.value, j, version, Some(i))]
               else u.setups == Rejection(t.setups, package) && u.trail == t.trail
  {
    hide MaxVersion, Adoption;
  }

  lemma CloseVoteDelta(t: Tables, env: Env, i: Id)
    requires Unnumbered(t, i) && CloseVote(t, env, i, TallyOf(t.ballots, i)).Ok? && i !in t.results
    ensures var (u, figures) := CloseVote(t, env, i, TallyOf(t.ballots, i)).value;
            && Counted(t, i, figures) && u.results == t.results
            && Closed(t, u.(results := t.results[i := ResultRow(t, i, figures, env.now)]), i, figures, env.now)
  {
    hide Settle, ComputeResult, TallyOf, VoteRules, RowCheck, Rejection, Adopts;
    var p := t.proposals[i];
    var (u, figures) := CloseVote(t, env, i, TallyOf(t.ballots, i)).value;
    var to := figures.outcome.Status();
    var t1 := t.(proposals := t.proposals[i := p.(status := to, closedAt := Some(env.now))]);
    SettleDelta(t1, i, p.proposedSetup, to.Approved?);
  }

  predicate Unnumbered(t: Tables, i: Id) {
    i in t.proposals && t.proposals[i].proposedSetup.Some? ==>
      && t.proposals[i].proposedSetup.value in t.setups
      && (t.setups[t.proposals[i].proposedSetup.value].status.Proposed? ==>
            t.setups[t.proposals[i].proposedSetup.value].version.None?)
  }

  lemma CloseDelta(t: Tables, env: Env, i: Id) returns (figures: ResultCalc)
    requires Unnumbered(t, i) && i !in t.results && CloseTx(t, env, i).Ok? && CloseTx(t, env, i).value.1.Some?
    ensures Closed(t, CloseTx(t, env, i).value.0, i, figures, env.now)
    ensures CloseTx(t, env, i).value.1 == Some(figures.outcome.Status())
  {
    hide CloseVote, Closed, ComputeResult, TallyOf, VoteRules, Unnumbered, VoteDue;
    figures := CloseVote(t, env, i, TallyOf(t.ballots, i)).value.1;
    CloseVoteDelta(t, env, i);
  }

  /** The rows of a closed vote, its package aside. */
  ghost predicate RowsClosed(t: Tables, u: Tables, i: Id, figures: ResultCalc, now: int) {
    && i in t.proposals && t.proposals[i].status.InVoting? && t.proposals[i].voteSnapshot.Some? && i !in t.results
    && i in u.results && u.results[i].figures == figures
    && u == t.(proposals := t.proposals[i := t.proposals[i].(status := figures.outcome.Status(),
                                                             closedAt := Some(now))],
               results := t.results[i := u.results[i]], setups := u.setups, trail := u.trail)
  }

  ghost predicate PackageSettled(t: Tables, u: Tables, i: Id, figures: ResultCalc) {
    && i in t.proposals
    && if Adopting(t, i, figures) then Adopts(t.setups, u.setups, t.proposals[i].proposedSetup.value, i)
       else u.setups == Rejection(t.setups, t.proposals[i].proposedSetup)
  }

  lemma ClosedParts(t: Tables, u: Tables, i: Id, figures: ResultCalc, now: int)
    requires Closed(t, u, i, figures, now)
    ensures RowsClosed(t, u, i, figures, now) && PackageSettled(t, u, i, figures)
  {
    assert i in t.proposals && t.proposals[i].status.InVoting? && i !in t.results;
    CountedRow(t, i, figures, now);
    assert u.results[i].figures == figures;
    hide Counted, ResultRow, Adopts, Rejection, Adopting, ComputeResult, Rules, TallyOf;
  }

  /** What becomes of one setup row: the package voted on is adopted or rejected, the
      version it replaces is superseded, all else stays. */
  lemma SettledRow(t: Tables, u: Tables, i: Id, figures: ResultCalc, v: Id)
    requires PackageSettled(t, u, i, figures) && v in t.setups
    ensures v in u.setups && SameTerms(t.setups[v], u.setups[v])
    ensures var a, b := t.setups[v], u.setups[v];
            if t.proposals[i].proposedSetup == Some(v) && a.status.Proposed? then
              if Adopting(t, i, figures) then b.status.Adopted? && b.version.Some? && b.source == Some(i)
              else b.status.SetupRejected? && b.version == a.version && b.source == a.source
            else
              b.version == a.version && b.source == a.source
              && (b.status == a.status || (a.status.Adopted? && b.status.Superseded?))
  {
    hide MaxVersion;
  }

  /** What adoption and rejection have in common for the other parts of the invariant. */
  lemma SettledTerms(t: Tables, u: Tables, i: Id, figures: ResultCalc)
    requires PackageSettled(t, u, i, figures)
    ensures u.setups.Keys == t.setups.Keys && forall v :: v in t.setups ==> SameTerms(t.setups[v], u.setups[v])
  {
    forall v | v in t.setups
      ensures SameTerms(t.setups[v], u.setups[v])
    {
      SettledRow(t, u, i, figures, v);
    }
    hide MaxVersion, SameTerms;
  }

  lemma ClosedLocal(t: Tables, u: Tables, i: Id, figures: ResultCalc, now: int)
    requires Closed(t, u, i, figures, now)
    ensures Local(t, u, i)
  {
    hide Closed, PackageSettled, SameTerms;
    ClosedParts(t, u, i, figures, now);
    SettledTerms(t, u, i, figures);
  }

  lemma ClosedBooks(t: Tables, u: Tables, i: Id, figures: ResultCalc, now: int)
    requires Closed(t, u, i, figures, now) && BooksOk(t)
    ensures BooksOk(u)
  {
    hide Closed, PackageSettled, SameTerms, DistinctBallots;
    ClosedParts(t, u, i, figures, now);
    SettledTerms(t, u, i, figures);
  }

  lemma ClosedSnapshots(t: Tables, u: Tables, i: Id, figures: ResultCalc, now: int)
    requires Closed(t, u, i, figures, now) && SnapshotsOk(t)
    ensures SnapshotsOk(u)
  {
    hide Closed, PackageSettled;
    ClosedParts(t, u, i, figures, now);
    assert forall s :: s in u.snapshots ==> SnapshotOk(t, s);
  }

  lemma CountedRow(t: Tables, i: Id, figures: ResultCalc, now: int)
    requires Counted(t, i, figures)
    ensures var p := t.proposals[i];
            var r := ResultRow(t, i, figures, now);
            && p.voteSnapshot.Some? && p.voteSetupVersion.Some?
            && p.voteSnapshot.value in t.snapshots && p.voteSetupVersion.value in t.setups
            && var rules := Rules(t.setups[p.voteSetupVersion.value].params, p.kind);
               && r.snapshot == p.voteSnapshot.value && r.setupVersion == p.voteSetupVersion.value
               && r.electorate == t.snapshots[p.voteSnapshot.value].memberCount && r.tally == TallyOf(t.ballots, i)
               && r.quorumBp == rules.quorumBp && r.majorityBp == rules.majorityBp && r.figures == figures
               && ComputeResult(r.tally, r.electorate, r.quorumBp, r.majorityBp) == Calc(r.figures)
  {
    hide Rules, ComputeResult, TallyOf;
  }

  lemma ClosedResult(t: Tables, u: Tables, i: Id, figures: ResultCalc, now: int)
    requires Closed(t, u, i, figures, now)
    ensures i in u.proposals && ResultOk(u, i, u.proposals[i])
  {
    ClosedParts(t, u, i, figures, now);
    SettledTerms(t, u, i, figures);
    CountedRow(t, i, figures, now);
    hide Counted, ResultRow, PackageSettled, Adopting, Adopts, Rejection, Rules, ComputeResult, TallyOf, RowsClosed;
  }

  lemma ClosedVote(t: Tables, u: Tables, i: Id, figures: ResultCalc, now: int)
    requires Closed(t, u, i, figures, now) && VoteOk(t, i, t.proposals[i])
    ensures VoteOk(u, i, u.proposals[i])
  {
    hide Closed, PackageSettled, ResultOk, ValidParams, NBallots;
    ClosedParts(t, u, i, figures, now);
    ClosedResult(t, u, i, figures, now);
    SettledTerms(t, u, i, figures);
  }

  lemma ClosedCollection(t: Tables, u: Tables, i: Id, figures: ResultCalc, now: int)
    requires Closed(t, u, i, figures, now) && CollectionOk(t, i, t.proposals[i]) && Shape(t.proposals[i])
    ensures CollectionOk(u, i, u.proposals[i]) && Shape(u.proposals[i])
  {
    hide Closed, PackageSettled, ValidParams, Signers;
    ClosedParts(t, u, i, figures, now);
    SettledTerms(t, u, i, figures);
  }

  lemma ClosedProposal(t: Tables, u: Tables, i: Id, figures: ResultCalc, now: int)
    requires Closed(t, u, i, figures, now) && ProposalOk(t, i)
    ensures ProposalOk(u, i)
  {
    hide Closed, VoteOk, CollectionOk, Shape, PackageSettled;
    ClosedParts(t, u, i, figures, now);
    ClosedVote(t, u, i, figures, now);
    ClosedCollection(t, u, i, figures, now);
  }

  lemma ClosedSetups(t: Tables, u: Tables, i: Id, figures: ResultCalc, now: int)
    requires Closed(t, u, i, figures, now) && SetupsOk(t.setups)
    ensures SetupsOk(u.setups)
  {
    hide SetupsOk, Closed, Adopts, Rejection, RowsClosed, Quiet;
    ClosedParts(t, u, i, figures, now);
    if Adopting(t, i, figures) {
      AdoptionSetups(t.setups, u.setups, t.proposals[i].proposedSetup.value, i);
    } else {
      RejectedIsQuiet(t.setups, t.proposals[i].proposedSetup);
      QuietSetups(t.setups, u.setups);
    }
  }

  lemma ClosedPackage(t: Tables, u: Tables, i: Id, figures: ResultCalc, now: int, k: Id)
    requires Closed(t, u, i, figures, now) && k in t.proposals && PackageOk(t, k) && PackageOk(t, i)
    requires k != i && t.proposals[k].proposedSetup.Some? ==>
               t.proposals[k].proposedSetup != t.proposals[i].proposedSetup
    ensures k in u.proposals && PackageOk(u, k)
  {
    hide Closed, PackageSettled;
    ClosedParts(t, u, i, figures, now);
    if t.proposals[k].proposedSetup.Some? {
      SettledRow(t, u, i, figures, t.proposals[k].proposedSetup.value);
    }
  }

  lemma ClosedSource(t: Tables, u: Tables, i: Id, figures: ResultCalc, now: int, v: Id)
    requires Closed(t, u, i, figures, now) && v in t.setups && v in u.setups && u.setups[v].version.Some?
    requires t.setups[v].version.Some? ==>
               && t.setups[v].source.Some? && t.setups[v].source.value in t.proposals
               && t.proposals[t.setups[v].source.value].proposedSetup == Some(v)
               && WasApproved(t, t.setups[v].source.value)
    ensures u.setups[v].source.Some? && u.setups[v].source.value in u.proposals
    ensures u.proposals[u.setups[v].source.value].proposedSetup == Some(v) && WasApproved(u, u.setups[v].source.value)
  {
    hide Closed, PackageSettled;
    ClosedParts(t, u, i, figures, now);
    SettledRow(t, u, i, figures, v);
  }

  lemma ClosedPackages(t: Tables, u: Tables, i: Id, figures: ResultCalc, now: int)
    requires Closed(t, u, i, figures, now) && PackagesOk(t)
    ensures PackagesOk(u)
  {
    hide Closed, PackageSettled, SameTerms, PackageOk, WasApproved;
    ClosedParts(t, u, i, figures, now);
    SettledTerms(t, u, i, figures);
    forall k | k in u.proposals
      ensures PackageOk(u, k)
    {
      ClosedPackage(t, u, i, figures, now, k);
    }
    forall v | v in u.setups && u.setups[v].version.Some?
      ensures u.setups[v].source.Some? && u.setups[v].source.value in u.proposals
      ensures u.proposals[u.setups[v].source.value].proposedSetup == Some(v) && WasApproved(u, u.setups[v].source.value)
    {
      ClosedSource(t, u, i, figures, now, v);
    }
  }

  /** The standing of a closing vote in the coverage rules. */
  ghost predicate Concluded(t: Tables, u: Tables, i: Id) {
    && i in t.proposals && t.proposals[i].status.InVoting? && u.catalog == t.catalog
    && u.proposals.Keys == t.proposals.Keys
    && (forall k :: k in t.proposals && k != i ==> u.proposals[k] == t.proposals[k])
    && u.proposals[i].kind == t.proposals[i].kind && u.proposals[i].jurisdiction == t.proposals[i].jurisdiction
    && !u.proposals[i].status.InVoting?
    && (forall k :: k != i ==> (WasApproved(u, k) <==> WasApproved(t, k)))
  }

  lemma ClosedConcludes(t: Tables, u: Tables, i: Id, figures: ResultCalc, now: int)
    requires Closed(t, u, i, figures, now)
    ensures Concluded(t, u, i) && i !in t.results && (WasApproved(u, i) <==> figures.outcome.OApproved?)
  {
    hide Closed, PackageSettled;
    ClosedParts(t, u, i, figures, now);
  }

  lemma ConcludedQuietLaws(t: Tables, u: Tables, i: Id)
    requires Concluded(t, u, i) && Quiet(t.setups, u.setups) && LawsCovered(t) && VotesUncovered(t)
    ensures LawsCovered(u) && VotesUncovered(u)
  {
    forall k
      ensures Covered(u, k) == Covered(t, k)
    {
      QuietCover(t, u, k);
    }
    hide Covered, Quiet, HeirsOk, WasApproved;
  }

  lemma ConcludedQuietCover(t: Tables, u: Tables, i: Id)
    requires Concluded(t, u, i) && Quiet(t.setups, u.setups) && CoverOk(t)
    requires WasApproved(u, i) ==> !Plebiscite(t, i)
    ensures CoverOk(u)
  {
    hide Covered, Quiet, HeirsOk, WasApproved, LawsCovered, VotesUncovered;
    QuietHeirs(t.setups, u.setups);
    ConcludedQuietLaws(t, u, i);
  }

  /** Only one plebiscite is open, so adopting its package leaves no uncovered vote open;
      a setup change is adopted where a setup already applies and covers nobody new. */
  lemma AdoptedVotes(t: Tables, u: Tables, i: Id, v: Id)
    requires Concluded(t, u, i) && CoverOk(t) && Adopts(t.setups, u.setups, v, i)
    requires t.setups[v].jurisdiction == t.proposals[i].jurisdiction
    ensures LawsCovered(u) && VotesUncovered(u) && OneOpen(u)
  {
    forall k
      ensures Covered(t, k) ==> Covered(u, k)
      ensures Covered(t, t.proposals[i].jurisdiction) && Covered(u, k) ==> Covered(t, k)
    {
      AdoptionCover(t, u, v, i, k);
    }
    hide Covered, Adopts, HeirsOk, OneApproved, WasApproved;
  }

  /** A second plebiscite cannot be approved where one already was: the first left the
      jurisdiction covered. */
  lemma AdoptedOnce(t: Tables, u: Tables, i: Id)
    requires Concluded(t, u, i) && CoverOk(t) && PackagesOk(t)
    requires forall k :: Plebiscite(t, k) ==> t.proposals[k].proposedSetup.Some?
    ensures OneApproved(u)
  {
    forall k | Plebiscite(t, k) && Plebiscite(t, i) && WasApproved(t, k) && k != i
      ensures t.proposals[k].jurisdiction != t.proposals[i].jurisdiction
    {
      assert PackageOk(t, k);
      var v := t.proposals[k].proposedSetup.value;
      assert Numbered(t.setups[v].status) && HasAdopted(t.setups, t.proposals[k].jurisdiction);
      assert HitAt(t, t.proposals[k].jurisdiction, 0);
    }
    hide PackagesOk, Covered, HeirsOk, LawsCovered, VotesUncovered, OneOpen;
  }

  lemma ClosedCover(t: Tables, u: Tables, i: Id, figures: ResultCalc, now: int)
    requires Closed(t, u, i, figures, now) && CoverOk(t) && PackagesOk(t) && PackageOk(t, i)
    requires forall k :: Plebiscite(t, k) ==> t.proposals[k].proposedSetup.Some?
    requires IsSetupVote(t.proposals[i].kind) <==> t.proposals[i].proposedSetup.Some?
    ensures CoverOk(u)
  {
    ClosedConcludes(t, u, i, figures, now);
    ClosedParts(t, u, i, figures, now);
    hide Closed, RowsClosed, Adopts, Rejection, LawsCovered, VotesUncovered, OneOpen, OneApproved, HeirsOk,
         PackagesOk, Quiet, WasApproved;
    if Adopting(t, i, figures) {
      var v := t.proposals[i].proposedSetup.value;
      AdoptionHeirs(t.setups, u.setups, v, i);
      AdoptedVotes(t, u, i, v);
      AdoptedOnce(t, u, i);
    } else {
      RejectedIsQuiet(t.setups, t.proposals[i].proposedSetup);
      QuietHeirs(t.setups, u.setups);
      ConcludedQuietCover(t, u, i);
    }
  }

  lemma ClosedTrail(t: Tables, u: Tables, i: Id, figures: ResultCalc, now: int)
    requires Closed(t, u, i, figures, now) && TrailOk(t) && GrantsOk(t)
    ensures TrailOk(u) && GrantsOk(u)
  {
    ClosedParts(t, u, i, figures, now);
    hide Counted, ResultRow, Adopts, Rejection, TrailOk, GrantsOk, PackageSettled;
    var e := PhaseChanged(i, InVoting, figures.outcome.Status());
    if Adopting(t, i, figures) {
      var version, j :| u.trail ==
        t.trail + [SetupAdopted(t.proposals[i].proposedSetup.value, j, version, Some(i))] + [e];
      var adopted := SetupAdopted(t.proposals[i].proposedSetup.value, j, version, Some(i));
      AdoptedTrail(t, adopted);
      PhaseTrail(t.(trail := t.trail + [adopted]), u, i, InVoting, figures.outcome.Status());
    } else {
      PhaseTrail(t, u, i, InVoting, figures.outcome.Status());
    }
  }

  /** An adoption is no step of any proposal's history. */
  lemma AdoptedTrail(t: Tables, adopted: Event)
    requires TrailOk(t) && GrantsOk(t) && adopted.SetupAdopted?
    ensures TrailOk(t.(trail := t.trail + [adopted])) && GrantsOk(t.(trail := t.trail + [adopted]))
  {
    var m := t.(trail := t.trail + [adopted]);
    forall k
      ensures Replay(m.trail, k) == Stored(m, k)
    {
      Appended(t.trail, adopted, k);
    }
    Appended(t.trail, adopted, 0);
  }

  lemma VotersHaveRows(t: Tables, i: Id)
    requires ProposalsOk(t) && i in t.proposals
    ensures ProposalOk(t, i) && (IsSetupVote(t.proposals[i].kind) <==> t.proposals[i].proposedSetup.Some?)
    ensures forall k :: Plebiscite(t, k) ==> t.proposals[k].proposedSetup.Some?
  {
    forall k | k in t.proposals
      ensures Plebiscite(t, k) ==> t.proposals[k].proposedSetup.Some?
    {
      assert ProposalOk(t, k);
    }
    assert ProposalOk(t, i);
  }

  lemma ClosedKeeps(t: Tables, u: Tables, i: Id, figures: ResultCalc, now: int)
    requires Valid(t) && Closed(t, u, i, figures, now)
    ensures Valid(u)
  {
    assert u.catalog == t.catalog && i in t.proposals;
    assert PackageOk(t, i);
    hide ProposalOk, BooksOk, SnapshotsOk, SetupsOk, PackagesOk, CoverOk, TrailOk, GrantsOk, Forest, Local,
         ProposalsOk, Closed, PackageOk;
    VotersHaveRows(t, i);
    ClosedLocal(t, u, i, figures, now);
    ClosedBooks(t, u, i, figures, now);
    ClosedSnapshots(t, u, i, figures, now);
    ClosedProposal(t, u, i, figures, now);
    OthersKept(t, u, i);
    ClosedSetups(t, u, i, figures, now);
    ClosedPackages(t, u, i, figures, now);
    ClosedCover(t, u, i, figures, now);
    ClosedTrail(t, u, i, figures, now);
  }
}
