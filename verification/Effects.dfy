/** What the remaining transactions need and write, column by column: drafts, withdrawals
    of signatures, the plebiscite, archiving, deadlines, adoptions and grants. */
module Effects {
  import opened Prelude
  import opened Electoral
  import opened Territory
  import opened Tables
  import opened Transactions
  import opened Integrity
  import opened Preservation
  import opened Decisions
  import opened Drafting
  import opened Closing
  import opened Deadlines
  import opened Steps
  import opened Ledger
  import opened Runs
  import opened Faults
  import opened Theorems
  import opened Acts
  import opened Verdicts

  // ------------------------------------------------------------ grants

  /** A new grant of the session opens exactly its act on its resource for five minutes. */
  lemma GrantLasts(t: Tables, at: int, session: Id, action: Critical, resource: Id,
                   now: int, user: Id, asked: Critical, wanted: Id)
    requires t.grants == map[]
    ensures HasGrant(GrantTx(t, at, session, action, resource), now, user, asked, wanted) <==>
              user == session && asked == action && wanted == resource && now < at + 300_000
    ensures forall g :: g in GrantTx(t, at, session, action, resource).grants ==>
              GrantTx(t, at, session, action, resource).grants[g].createdAt == at
  {
    var u := GrantTx(t, at, session, action, resource);
    assert t.next in u.grants && u.grants.Keys == {t.next};
  }

  /** The grant taken is the oldest of those that open the act; nothing else changes. */
  lemma OldestIsTaken(t: Tables, now: int, session: Id, action: Critical, resource: Id) returns (g: Id)
    requires Consume(t, now, session, action, resource).Ok?
    ensures g in t.grants && t.grants[g].session == session && t.grants[g].action == action
    ensures t.grants[g].resource == resource && t.grants[g].consumedAt.None? && now < t.grants[g].expiresAt
    ensures forall h :: h in t.grants && t.grants[h].session == session && t.grants[h].action == action
                        && t.grants[h].resource == resource && t.grants[h].consumedAt.None?
                        && now < t.grants[h].expiresAt
                        ==> t.grants[g].createdAt <= t.grants[h].createdAt
    ensures Consume(t, now, session, action, resource) ==
            Ok(t.(grants := t.grants[g := t.grants[g].(consumedAt := Some(now))]))
  {
    var usable := UsableGrants(t.grants, now, session, action, resource);
    g := Oldest(t.grants, usable);
    assert g in usable;
    forall h | h in t.grants && Usable(t.grants[h], now, session, action, resource)
      ensures t.grants[g].createdAt <= t.grants[h].createdAt
    {
      assert h in usable && Before(t.grants, g, h);
    }
    hide Oldest;
  }

  // ------------------------------------------------------------ drafts

  ghost predicate MaySave(t: Tables, env: Env, actor: Actor, id: Option<Id>, input: DraftInput) {
    && ProposalsFlag in env.flags && MayCreate in actor.may && !input.kind.InitialSetup?
    && (input.kind.SetupChange? ==> input.package.Some? && ValidParams(input.package.value))
    && EffectiveSetup(t, match input.level
                         case National => actor.country
                         case State => actor.state
                         case Municipal => actor.municipality).Some?
    && (id.Some? ==> id.value in t.proposals && t.proposals[id.value].author == actor.user
                     && t.proposals[id.value].status.Draft?)
  }

  /** Which draft a save writes, and why there is none. */
  lemma DraftOwned(t: Tables, actor: Actor, id: Option<Id>, kind: Kind, j: Id)
    requires id.Some? && id.value in t.proposals ==> RowCheck(t.proposals[id.value])
    ensures var r := OwnDraft(t, actor, id, kind, j);
            if id.None? then r.Ok? && RowCheck(r.value.0.proposals[r.value.1])
            else if id.value !in t.proposals || t.proposals[id.value].author != actor.user then r == Err(NotFound)
            else if !t.proposals[id.value].status.Draft? then r == Err(PhaseClosed)
            else r.Ok? && RowCheck(r.value.0.proposals[r.value.1])
  {
    hide Rejection;
  }

  lemma WriteWorks(t: Tables, i: Id, kind: Kind, j: Id, proposed: Option<SetupParams>)
    requires i in t.proposals && t.proposals[i].status.Draft? && RowCheck(t.proposals[i])
    requires proposed.Some? ==> ValidParams(proposed.value)
    ensures WriteDraft(t, i, kind, j, proposed).Ok?
  {
    hide ValidParams;
  }

  lemma SaveIffFrom(t: Tables, env: Env, actor: Actor, id: Option<Id>, input: DraftInput)
    requires t.next !in t.proposals
    requires id.Some? && id.value in t.proposals ==> RowCheck(t.proposals[id.value])
    ensures SaveDraftTx(t, env, actor, id, input).Ok? <==> MaySave(t, env, actor, id, input)
  {
    hide ValidParams, EffectiveSetup, OwnDraft, WriteDraft, RowCheck;
    var j := AuthorJurisdiction(actor, input.level);
    DraftOwned(t, actor, id, input.kind, j);
    if DraftPackage(input).Ok? && OwnDraft(t, actor, id, input.kind, j).Ok? {
      var (t1, i) := OwnDraft(t, actor, id, input.kind, j).value;
      WriteWorks(t1, i, input.kind, j, DraftPackage(input).value);
    }
  }

  /** A draft is saved exactly for a kind citizens may propose, with valid parameters for a
      setup change, in a place where a setup applies; a stored one only by its author and
      while it is a draft. */
  lemma SaveDraftIff(t: Tables, env: Env, actor: Actor, id: Option<Id>, input: DraftInput)
    requires Valid(t)
    ensures SaveDraftTx(t, env, actor, id, input).Ok? <==> MaySave(t, env, actor, id, input)
    ensures SaveDraftTx(t, env, actor, id, input).Ok? && id.Some? ==>
              SaveDraftTx(t, env, actor, id, input).value.1 == id.value
    ensures SaveDraftTx(t, env, actor, id, input).Ok? && id.None? ==>
              SaveDraftTx(t, env, actor, id, input).value.1 !in t.proposals
  {
    hide Valid, MaySave;
    KnownIds(t);
    if id.Some? && id.value in t.proposals {
      RowsChecked(t, id.value);
    }
    hide RowCheck;
    SaveIffFrom(t, env, actor, id, input);
    hide ValidParams, EffectiveSetup, Rejection, WriteDraft;
  }

  // ------------------------------------------------------------ signatures withdrawn

  /** The answer and the rows of a withdrawn signature: one signer and one count fewer, the
      stored target, no longer signed. */
  lemma UnsignAnswers(t: Tables, env: Env, actor: Actor, i: Id, key: Option<string>)
    requires FreshKey(t, actor.user, key) && UnsignTx(t, env, actor, i, key).Ok? && Valid(t)
    ensures var (u, response) := UnsignTx(t, env, actor, i, key).value;
            && i in t.proposals && t.proposals[i].target.Some? && t.proposals[i].count > 0
            && var p := t.proposals[i];
               && u.proposals == t.proposals[i := p.(count := p.count - 1)]
               && Signers(u.signatures, i) == Signers(t.signatures, i) - {actor.user}
               && actor.user in Signers(t.signatures, i)
               && (forall j :: j != i ==> Signers(u.signatures, j) == Signers(t.signatures, j))
               && u.trail == t.trail + [SignatureWithdrawn(i, p.count - 1, p.target.value)]
               && response == SignatureState(Collecting, p.count - 1, p.target.value, false)
  {
    hide Valid;
    UnsignWrites(t, env, actor, i, key);
    SignerRemoved(t.signatures, i, actor.user);
    hide Signers, Store;
  }

  // ------------------------------------------------------------ the plebiscite

  /** What a started plebiscite stores: the package as proposed, the electorate, and a row
      already in voting under its own package. */
  lemma StartedAsGiven(t: Tables, env: Env, actor: Actor, params: SetupParams)
    requires StartTx(t, env, actor, params).Ok?
    ensures var (u, i) := StartTx(t, env, actor, params).value;
            var v, s := t.next, t.next + 2;
            var members := Eligible(env, actor.country);
            && i == t.next + 1 && i in u.proposals
            && u.setups == t.setups[v := Setup(actor.country, None, Proposed, None, params)]
            && u.snapshots == t.snapshots[s := Snapshot(i, VotingPhase, actor.country, v, |members|, members)]
            && u.proposals == t.proposals[i := Proposal(
                 InitialSetup, actor.country, actor.user, InVoting, Some(v), None, None, None, 0, None, None, None,
                 Some(v), Some(s), Some(env.now + params.initialVoteDays * 86_400_000), Some(env.now), None, None)]
            && u.ballots == t.ballots && u.signatures == t.signatures && u.results == t.results && u.grants == t.grants
            && u.trail == t.trail + [PhaseChanged(i, Draft, InVoting)]
  {
    StartDelta(t, env, actor, params);
    hide StartTx, ValidParams, Covered, PlebisciteOpen;
  }

  // ------------------------------------------------------------ endings

  /** A row ended at `now`: the first closing stays, the package still proposed is rejected. */
  ghost predicate EndsRow(t: Tables, u: Tables, i: Id, q: Proposal, e: Event) {
    && i in t.proposals
    && u == t.(proposals := t.proposals[i := q], setups := u.setups, trail := t.trail + [e])
    && u.setups.Keys == t.setups.Keys
    && forall v :: v in t.setups ==>
         u.setups[v] == if t.proposals[i].proposedSetup == Some(v) && t.setups[v].status.Proposed?
                        then t.setups[v].(status := SetupRejected) else t.setups[v]
  }

  function ArchivedRow(p: Proposal, now: int): Proposal {
    p.(status := Archived, archivedAt := Some(now), closedAt := if p.closedAt.Some? then p.closedAt else Some(now))
  }

  lemma ArchiveWrites(t: Tables, env: Env, i: Id, e: Event)
    requires i in t.proposals && RowCheck(t.proposals[i])
    requires !t.proposals[i].status.Draft? && !t.proposals[i].status.Archived?
    ensures ArchiveRow(t, env, i, t.proposals[i], e).Ok?
    ensures EndsRow(t, ArchiveRow(t, env, i, t.proposals[i], e).value, i, ArchivedRow(t.proposals[i], env.now), e)
  {
  }

  /** Archiving works exactly for a decided or expired proposal and with the permission. */
  lemma ArchiveIff(t: Tables, env: Env, actor: Actor, i: Id)
    requires Valid(t)
    ensures ArchiveTx(t, env, actor, i).Ok? <==>
            && MayArchive in actor.may && i in t.proposals
            && t.proposals[i].status in {Approved, Rejected, QuorumNotReached, Expired}
    ensures ArchiveTx(t, env, actor, i).Ok? ==>
              EndsRow(t, ArchiveTx(t, env, actor, i).value, i, ArchivedRow(t.proposals[i], env.now),
                      ProposalArchived(i, t.proposals[i].status))
  {
    hide Valid, ArchiveRow, EndsRow, RowCheck;
    if i in t.proposals {
      RowsChecked(t, i);
      if IsTerminal(t.proposals[i].status) {
        ArchiveWrites(t, env, i, ProposalArchived(i, t.proposals[i].status));
      }
    }
  }

  /** What a withdrawal writes. */
  lemma WithdrawnRow(t: Tables, env: Env, actor: Actor, i: Id)
    requires WithdrawTx(t, env, actor, i).Ok? && Valid(t)
    ensures i in t.proposals
    ensures EndsRow(t, WithdrawTx(t, env, actor, i).value, i, ArchivedRow(t.proposals[i], env.now),
                    ProposalWithdrawn(i, Collecting))
  {
    hide Valid, ArchiveRow, EndsRow, RowCheck;
    WithdrawIff(t, env, actor, i);
    RowsChecked(t, i);
    ArchiveWrites(t, env, i, ProposalWithdrawn(i, Collecting));
  }

  /** What a due phase writes: a collection expires, a debate without electorate is
      archived, any other opens its vote. */
  lemma AdvancedRow(t: Tables, env: Env, i: Id)
    requires i in t.proposals && Valid(t)
    requires || (t.proposals[i].status.Collecting? && Past(t.proposals[i].collectEndsAt, env.now))
             || (t.proposals[i].status.InDebate? && Past(t.proposals[i].debateEndsAt, env.now))
    ensures AdvanceTx(t, env, i).Ok?
    ensures var (u, to) := AdvanceTx(t, env, i).value;
            var p := t.proposals[i];
            if p.status.Collecting? then
              && to == Some(Expired)
              && EndsRow(t, u, i, p.(status := Expired, closedAt := Some(env.now)),
                         PhaseChanged(i, Collecting, Expired))
            else if Eligible(env, p.jurisdiction) == {} then
              && to == Some(Archived)
              && EndsRow(t, u, i, p.(status := Archived, archivedAt := Some(env.now), closedAt := Some(env.now)),
                         PhaseChanged(i, InDebate, Archived))
            else to == Some(InVoting) && OpenVoting(t, env, i, p) == Ok(u)
  {
    hide Valid, OpenVoting, Covered;
    AdvanceSucceeds(t, env, i);
    if t.proposals[i].status.InDebate? {
      DebateSucceeds(t, env, i);
    }
  }

  // ------------------------------------------------------------ setups

  /** An adopted package gets the number after every other of its jurisdiction, the one in
      force there is superseded, all other rows stay, and the event names it. */
  lemma AdoptionIs(t: Tables, v: Id, source: Option<Id>)
    requires AdoptProposed(t, v, source).Ok?
    ensures var u := AdoptProposed(t, v, source).value;
            && v in t.setups && t.setups[v].status.Proposed? && v in u.setups && u.setups.Keys == t.setups.Keys
            && var row := u.setups[v];
               && row.version.Some? && row == t.setups[v].(status := Adopted, version := row.version, source := source)
               && (row.version.value == 1 || row.version.value - 1 in Versions(t.setups, row.jurisdiction))
               && (forall n :: n in Versions(t.setups, row.jurisdiction) ==> n < row.version.value)
               && (forall w :: w in t.setups && w != v ==>
                     u.setups[w] == if t.setups[w].jurisdiction == row.jurisdiction && t.setups[w].status.Adopted?
                                    then t.setups[w].(status := Superseded) else t.setups[w])
               && u == t.(setups := u.setups,
                          trail := t.trail + [SetupAdopted(v, row.jurisdiction, row.version.value, source)])
  {
    hide Versions, MaxVersion;
  }

  /** The setup of a jurisdiction is its own adopted version, otherwise that of its parent,
      otherwise none. */
  lemma EffectiveIs(t: Tables, j: Id)
    requires SetupsOk(t.setups)
    ensures forall v: Id :: v in t.setups && t.setups[v].jurisdiction == j && t.setups[v].status.Adopted? ==>
              EffectiveSetup(t, j) == Some(v)
    ensures (forall v :: v in t.setups && t.setups[v].jurisdiction == j ==> !t.setups[v].status.Adopted?) ==>
              EffectiveSetup(t, j) ==
              if j in t.catalog && t.catalog[j].parent.Some? then EffectiveSetup(t, t.catalog[j].parent.value) else None
  {
    hide SetupsOk, EffectiveSetup;
    forall v: Id | v in t.setups && t.setups[v].jurisdiction == j && t.setups[v].status.Adopted?
      ensures EffectiveSetup(t, j) == Some(v)
    {
      assert IsAdopted(t.setups, j, v);
      AdoptedApplies(t, j, v);
    }
    if forall v :: v in t.setups && t.setups[v].jurisdiction == j ==> !t.setups[v].status.Adopted? {
      assert !HasAdopted(t.setups, j);
      ParentApplies(t, j);
    }
  }

  lemma ParentApplies(t: Tables, j: Id)
    requires !HasAdopted(t.setups, j)
    ensures EffectiveSetup(t, j) ==
            if j in t.catalog && t.catalog[j].parent.Some? then EffectiveSetup(t, t.catalog[j].parent.value) else None
  {
    hide HasAdopted;
    assert Up(t.catalog, j, 0) == Some(j) && Up(t.catalog, j, 1) == Parent(t.catalog, j);
    if Parent(t.catalog, j).None? {
      forall n: nat
        ensures !HitAt(t, j, n)
      {
        if n > 0 {
          PastTheRoot(t.catalog, j, 1, n);
        }
      }
    } else {
      var a := Parent(t.catalog, j).value;
      hide Up;
      forall n: nat
        ensures HitAt(t, j, n + 1) == HitAt(t, a, n)
      {
        UpCompose(t.catalog, j, 1, a, n);
      }
      if Covered(t, a) {
        var n := NearestHit(t, a);
        forall m: nat | m < n + 1
          ensures !HitAt(t, j, m)
        {
          assert m > 0 ==> HitAt(t, j, m - 1 + 1) == HitAt(t, a, m - 1);
        }
        NearestIs(t, j, n + 1);
        UpCompose(t.catalog, j, 1, a, n);
      } else {
        forall m: nat
          ensures !HitAt(t, j, m)
        {
          assert m > 0 ==> HitAt(t, j, m - 1 + 1) == HitAt(t, a, m - 1);
        }
      }
    }
  }
}
