/** What any single transaction may do to the stored rows: the step relation that the
    theorems over whole runs are proved from. */
module Steps {
  import opened Prelude
  import opened Electoral
  import opened Territory
  import opened Tables
  import opened Transactions
  import opened Integrity
  import opened Preservation
  import opened Decisions
  import opened Drafting
  import opened Closing
  import opened Deadlines

  // ------------------------------------------------------------ the relation

  /** Fixed at publication. */
  predicate KeptTerms(p: Proposal, q: Proposal) {
    && q.kind == p.kind && q.jurisdiction == p.jurisdiction && q.author == p.author
    && q.proposedSetup == p.proposedSetup && q.setupVersion == p.setupVersion
    && q.collectionSnapshot == p.collectionSnapshot && q.target == p.target && q.quotaYear == p.quotaYear
    && q.collectEndsAt == p.collectEndsAt && q.publishedAt == p.publishedAt
  }

  /** Fixed when the vote opens. */
  predicate KeptVote(p: Proposal, q: Proposal) {
    q.voteSetupVersion == p.voteSetupVersion && q.voteSnapshot == p.voteSnapshot && q.voteEndsAt == p.voteEndsAt
  }

  predicate Past(deadline: Option<int>, now: int) { deadline.Some? && deadline.value <= now }
  predicate Ahead(deadline: Option<int>, now: int) { deadline.Some? && now < deadline.value }

  predicate Lasts(deadline: Option<int>, now: int, days: Option<nat>) {
    days.Some? && deadline == Some(now + days.value * DAY)
  }

  function RulesAt(setups: map<Id, Setup>, v: Option<Id>, kind: Kind): Option<KindRules> {
    if v.Some? && v.value in setups then Some(Rules(setups[v.value].params, kind)) else None
  }

  predicate VoteLasts(setups: map<Id, Setup>, q: Proposal, now: int) {
    var rules := RulesAt(setups, q.voteSetupVersion, q.kind);
    rules.Some? && Lasts(q.voteEndsAt, now, Some(rules.value.voteDays))
  }

  /** Each edge happens inside its time window and sets the next deadline from the rules
      in force. */
  predicate Timely(setups: map<Id, Setup>, p: Proposal, q: Proposal, now: int) {
    match (p.status, q.status)
    case (Draft, Collecting) =>
      var rules := RulesAt(setups, q.setupVersion, q.kind);
      q.publishedAt == Some(now) && rules.Some? && Lasts(q.collectEndsAt, now, rules.value.collectDays)
      && q.debateEndsAt.None? && q.voteEndsAt.None?
    case (Collecting, InDebate) =>
      var rules := RulesAt(setups, q.setupVersion, q.kind);
      Ahead(p.collectEndsAt, now) && Reached(q) && rules.Some? && Lasts(q.debateEndsAt, now, rules.value.debateDays)
      && q.voteEndsAt == p.voteEndsAt
    case (Collecting, InVoting) =>
      Ahead(p.collectEndsAt, now) && Reached(q) && VoteLasts(setups, q, now) && q.debateEndsAt == p.debateEndsAt
    case (InDebate, InVoting) =>
      Past(p.debateEndsAt, now) && VoteLasts(setups, q, now) && q.debateEndsAt == p.debateEndsAt
    case (Collecting, Expired) => Past(p.collectEndsAt, now)
    case (InDebate, Archived) => Past(p.debateEndsAt, now)
    case (InVoting, _) => (q.status.InVoting? || Past(p.voteEndsAt, now)) && q.debateEndsAt == p.debateEndsAt
    case (_, _) => q.debateEndsAt == p.debateEndsAt && q.voteEndsAt == p.voteEndsAt
  }

  predicate NewRow(setups: map<Id, Setup>, q: Proposal, now: int) {
    q.quotaYear.None? && BornAs(setups, q, now)
  }

  predicate BornAs(setups: map<Id, Setup>, q: Proposal, now: int) {
    || (q.status.Draft? && q.publishedAt.None?)
    || (q.status.InVoting? && q.kind.InitialSetup? && q.publishedAt == Some(now) && VoteLasts(setups, q, now))
  }

  predicate RowStep(setups: map<Id, Setup>, p: Proposal, q: Proposal, now: int) {
    && (q.status == p.status || Edge(p.kind, p.status, q.status))
    && (!p.status.Draft? ==> KeptTerms(p, q))
    && (p.voteSnapshot.Some? ==> KeptVote(p, q))
    && (q.count != p.count ==> p.status.Collecting? && Ahead(p.collectEndsAt, now))
    && (p.status.Archived? ==> q == p)
    && (q.status.Draft? ==> p.status.Draft? && q.quotaYear == p.quotaYear)
    && Timely(setups, p, q, now)
  }

  ghost predicate ProposalStep(t: Tables, u: Tables, i: Id, now: int) {
    i in u.proposals ==>
      if i in t.proposals then RowStep(u.setups, t.proposals[i], u.proposals[i], now)
      else NewRow(u.setups, u.proposals[i], now)
  }

  /** Signatures change only during collection, ballots only while the vote is open, and
      a stored result never changes. */
  ghost predicate TablesStep(t: Tables, u: Tables, i: Id, now: int) {
    && (u.signatures != t.signatures ==>
          i in t.proposals && t.proposals[i].status.Collecting? && Ahead(t.proposals[i].collectEndsAt, now))
    && (u.ballots != t.ballots ==>
          i in t.proposals && t.proposals[i].status.InVoting? && Ahead(t.proposals[i].voteEndsAt, now))
    && (i in t.results ==> i in u.results && u.results[i] == t.results[i])
    && (i in u.results && i !in t.results ==>
          i in t.proposals && i in u.proposals && t.proposals[i].status.InVoting? && IsDecided(u.proposals[i].status))
  }

  predicate SetupStep(a: Setup, b: Setup) {
    && SameTerms(a, b)
    && (a.version.Some? ==> b.version == a.version && b.source == a.source)
    && (b.status == a.status || (a.status.Proposed? && (b.status.Adopted? || b.status.SetupRejected?))
        || (a.status.Adopted? && b.status.Superseded?))
  }

  ghost predicate GovernStep(t: Tables, u: Tables) {
    && (forall v :: v in t.setups ==> v in u.setups && SetupStep(t.setups[v], u.setups[v]))
    && (forall k :: Covered(t, k) ==> Covered(u, k))
  }

  ghost predicate Stepped(t: Tables, u: Tables, i: Id, now: int) {
    Local(t, u, i) && ProposalStep(t, u, i, now) && TablesStep(t, u, i, now) && GovernStep(t, u)
  }

  // ------------------------------------------------------------ governance

  lemma SameGoverns(t: Tables, u: Tables)
    requires u.catalog == t.catalog && u.setups == t.setups
    ensures GovernStep(t, u)
  {
    forall k | Covered(t, k)
      ensures Covered(u, k)
    {
      CoveredSame(t, u, k);
    }
  }

  lemma QuietGoverns(t: Tables, u: Tables)
    requires u.catalog == t.catalog && Quiet(t.setups, u.setups)
    ensures GovernStep(t, u)
  {
    assert forall v :: v in t.setups ==> QuietRow(t.setups[v], u.setups[v]);
    forall k | Covered(t, k)
      ensures Covered(u, k)
    {
      QuietCover(t, u, k);
    }
  }

  lemma AdoptionGoverns(t: Tables, u: Tables, v: Id, source: Id)
    requires u.catalog == t.catalog && Adopts(t.setups, u.setups, v, source)
    ensures GovernStep(t, u)
  {
    forall k | Covered(t, k)
      ensures Covered(u, k)
    {
      AdoptionCover(t, u, v, source, k);
    }
    hide MaxVersion, Covered;
  }

  // ------------------------------------------------------------ one lemma per change

  lemma FromParts(t: Tables, u: Tables, i: Id, now: int)
    requires Local(t, u, i) && ProposalStep(t, u, i, now) && TablesStep(t, u, i, now) && GovernStep(t, u)
    ensures Stepped(t, u, i, now)
  {
    hide Local, ProposalStep, TablesStep, GovernStep;
  }

  lemma UnsignedRow(t: Tables, u: Tables, user: Id, i: Id, now: int)
    requires Unsigned(t, u, user, i) && Ahead(t.proposals[i].collectEndsAt, now)
    ensures ProposalStep(t, u, i, now) && TablesStep(t, u, i, now)
    ensures u.catalog == t.catalog && u.setups == t.setups
  {
  }

  lemma UnsignedSteps(t: Tables, u: Tables, user: Id, i: Id, now: int)
    requires Valid(t) && Unsigned(t, u, user, i) && Ahead(t.proposals[i].collectEndsAt, now)
    ensures Stepped(t, u, i, now)
  {
    assert BooksOk(t);
    hide *;
    UnsignedStep(t, u, user, i);
    UnsignedRow(t, u, user, i, now);
    SameGoverns(t, u);
    FromParts(t, u, i, now);
  }

  lemma VotedRow(t: Tables, u: Tables, user: Id, i: Id, choice: Choice, now: int)
    requires Voted(t, u, user, i, choice) && Ahead(t.proposals[i].voteEndsAt, now)
    ensures ProposalStep(t, u, i, now) && TablesStep(t, u, i, now)
    ensures u.catalog == t.catalog && u.setups == t.setups
  {
    hide Spent, InSnapshot, HasVoted;
  }

  lemma VotedSteps(t: Tables, u: Tables, user: Id, i: Id, choice: Choice, now: int)
    requires Valid(t) && Voted(t, u, user, i, choice) && Ahead(t.proposals[i].voteEndsAt, now)
    ensures Stepped(t, u, i, now)
  {
    assert SnapshotsOk(t);
    hide *;
    VotedStep(t, u, user, i, choice);
    VotedRow(t, u, user, i, choice, now);
    SameGoverns(t, u);
    FromParts(t, u, i, now);
  }

  predicate Bare(t: Tables, i: Id, p: Proposal) {
    && p.debateEndsAt.None? && p.voteEndsAt.None? && p.voteSnapshot.None? && i !in t.results && p.count == 0
    && p.publishedAt.None?
  }

  lemma DraftRowBare(t: Tables, i: Id)
    requires i in t.proposals && t.proposals[i].status.Draft? && ProposalOk(t, i)
    ensures Bare(t, i, t.proposals[i])
  {
    hide ResultOk, CollectionOk, BallotsInside;
  }

  /** A draft has no deadline yet. */
  lemma DraftBare(t: Tables, i: Id)
    requires Valid(t) && i in t.proposals && t.proposals[i].status.Draft?
    ensures Bare(t, i, t.proposals[i])
  {
    assert ProposalOk(t, i);
    hide *;
    DraftRowBare(t, i);
  }

  lemma PublishedRow(t: Tables, u: Tables, env: Env, i: Id, setup: Id)
    requires PublishedAs(t, u, env, i, setup)
    requires Bare(t, i, t.proposals[i])
    ensures ProposalStep(t, u, i, env.now) && TablesStep(t, u, i, env.now)
    ensures u.catalog == t.catalog && u.setups == t.setups
  {
    hide Spent, MinCount, SignatureBp, Rules;
  }

  lemma PublishedSteps(t: Tables, u: Tables, env: Env, i: Id, setup: Id)
    requires Valid(t) && PublishedAs(t, u, env, i, setup)
    ensures Stepped(t, u, i, env.now)
  {
    assert BooksOk(t) && i in t.proposals && t.proposals[i].status.Draft?;
    hide *;
    DraftBare(t, i);
    PublishedStep(t, u, env, i, setup);
    PublishedRow(t, u, env, i, setup);
    SameGoverns(t, u);
    FromParts(t, u, i, env.now);
  }

  lemma DraftedRow(t: Tables, u: Tables, i: Id, p: Proposal, kind: Kind, j: Id, package: Option<SetupParams>, now: int)
    requires Drafted(t, u, i, p, kind, j, package) && i !in t.results && p.publishedAt.None? && p.voteSnapshot.None?
    ensures ProposalStep(t, u, i, now) && TablesStep(t, u, i, now) && u.catalog == t.catalog
  {
    hide Rejection, ValidParams, Covered;
  }

  lemma DraftedSteps(t: Tables, u: Tables, i: Id, p: Proposal, kind: Kind, j: Id, package: Option<SetupParams>,
                     now: int)
    requires Valid(t) && Drafted(t, u, i, p, kind, j, package)
    ensures Stepped(t, u, i, now)
  {
    assert IdsOk(t) && RefsOk(t);
    assert i in t.proposals ==> t.proposals[i] == p && p.status.Draft?;
    assert i !in t.proposals ==> p == BlankDraft(p.kind, p.jurisdiction, p.author);
    hide Valid, Drafted, IdsOk, RefsOk, Quiet, Local, ProposalStep, TablesStep, GovernStep;
    if i in t.proposals {
      DraftBare(t, i);
    } else {
      Absent(t, i);
    }
    DraftedQuiet(t, u, i, p, kind, j, package);
    DraftedLocal(t, u, i, p, kind, j, package);
    DraftedRow(t, u, i, p, kind, j, package, now);
    QuietGoverns(t, u);
    FromParts(t, u, i, now);
  }

  lemma BegunRow(t: Tables, u: Tables, env: Env, user: Id, j: Id, params: SetupParams)
    requires Begun(t, u, env, user, j, params) && BooksOk(t)
    ensures ProposalStep(t, u, t.next + 1, env.now) && TablesStep(t, u, t.next + 1, env.now) && u.catalog == t.catalog
  {
    assert t.next + 1 !in t.proposals && t.next + 1 !in t.results;
    hide BooksOk, ValidParams, Covered, PlebisciteOpen, Rules;
  }

  lemma BegunSteps(t: Tables, u: Tables, env: Env, user: Id, j: Id, params: SetupParams)
    requires Valid(t) && Begun(t, u, env, user, j, params)
    ensures Stepped(t, u, t.next + 1, env.now)
  {
    assert BooksOk(t) && IdsOk(t);
    hide *;
    BegunLocal(t, u, env, user, j, params);
    BegunRow(t, u, env, user, j, params);
    QuietGoverns(t, u);
    FromParts(t, u, t.next + 1, env.now);
  }

  /** The deadline that lets the clock end a phase. */
  predicate EndWindow(p: Proposal, to: Status, now: int) {
    && (to.Expired? ==> Past(p.collectEndsAt, now))
    && (to.Archived? && p.status.InDebate? ==> Past(p.debateEndsAt, now))
  }

  lemma EndedRow(t: Tables, u: Tables, i: Id, to: Status, now: int)
    requires Ended(t, u, i, to) && EndWindow(t.proposals[i], to, now)
    requires t.proposals[i].status.Collecting? ==> CitizenCreatable(t.proposals[i].kind)
    ensures ProposalStep(t, u, i, now) && TablesStep(t, u, i, now) && u.catalog == t.catalog
  {
    hide Rejection, EndEvent, RowCheck;
  }

  lemma CollectedKind(t: Tables, i: Id)
    requires Valid(t) && i in t.proposals && t.proposals[i].status.Collecting?
    ensures CitizenCreatable(t.proposals[i].kind)
  {
    assert ProposalOk(t, i) && Shape(t.proposals[i]);
    hide Valid, ProposalOk;
  }

  lemma EndedSteps(t: Tables, u: Tables, i: Id, to: Status, now: int)
    requires Valid(t) && Ended(t, u, i, to) && EndWindow(t.proposals[i], to, now)
    ensures Stepped(t, u, i, now)
  {
    assert i in t.proposals;
    hide *;
    if t.proposals[i].status.Collecting? {
      CollectedKind(t, i);
    }
    EndedLocal(t, u, i, to);
    EndedRow(t, u, i, to, now);
    QuietGoverns(t, u);
    FromParts(t, u, i, now);
  }

  lemma OpenedRow(t: Tables, u: Tables, env: Env, i: Id, setup: Id)
    requires VotingOpened(t, u, env, i, setup) && t.proposals[i].status.InDebate?
             && Past(t.proposals[i].debateEndsAt, env.now)
    requires t.proposals[i].voteSnapshot.None? && (t.proposals[i].kind.NormalLaw? || t.proposals[i].kind.SetupChange?)
    ensures ProposalStep(t, u, i, env.now) && TablesStep(t, u, i, env.now)
    ensures u.catalog == t.catalog && u.setups == t.setups
  {
    hide Rules;
  }

  lemma OpenedSteps(t: Tables, u: Tables, env: Env, i: Id, setup: Id)
    requires Valid(t) && VotingOpened(t, u, env, i, setup)
    requires t.proposals[i].status.InDebate? && Past(t.proposals[i].debateEndsAt, env.now)
    ensures Stepped(t, u, i, env.now)
  {
    assert BooksOk(t) && ProposalsOk(t) && i in t.proposals;
    hide *;
    DebateShape(t, i);
    OpenedStep(t, u, env, i, setup);
    OpenedRow(t, u, env, i, setup);
    SameGoverns(t, u);
    FromParts(t, u, i, env.now);
  }

  lemma ClosedRow(t: Tables, u: Tables, i: Id, figures: ResultCalc, now: int)
    requires Closed(t, u, i, figures, now) && Past(t.proposals[i].voteEndsAt, now)
    ensures ProposalStep(t, u, i, now) && TablesStep(t, u, i, now) && u.catalog == t.catalog
  {
    hide Closed, PackageSettled;
    ClosedParts(t, u, i, figures, now);
  }

  lemma ClosedGoverns(t: Tables, u: Tables, i: Id, figures: ResultCalc, now: int)
    requires Closed(t, u, i, figures, now)
    ensures GovernStep(t, u)
  {
    hide Closed, Adopts, Rejection, GovernStep, Quiet;
    ClosedParts(t, u, i, figures, now);
    if Adopting(t, i, figures) {
      AdoptionGoverns(t, u, t.proposals[i].proposedSetup.value, i);
    } else {
      RejectedIsQuiet(t.setups, t.proposals[i].proposedSetup);
      QuietGoverns(t, u);
    }
  }

  lemma ClosedSteps(t: Tables, u: Tables, i: Id, figures: ResultCalc, now: int)
    requires Valid(t) && Closed(t, u, i, figures, now) && Past(t.proposals[i].voteEndsAt, now)
    ensures Stepped(t, u, i, now)
  {
    hide *;
    ClosedLocal(t, u, i, figures, now);
    ClosedRow(t, u, i, figures, now);
    ClosedGoverns(t, u, i, figures, now);
    FromParts(t, u, i, now);
  }

  lemma GrantSteps(t: Tables, now: int, session: Id, action: Critical, resource: Id)
    requires Valid(t)
    ensures var u := GrantTx(t, now, session, action, resource); Stepped(t, u, u.next, now)
  {
    var u := GrantTx(t, now, session, action, resource);
    assert BooksOk(t) && SnapshotsOk(t) && u.catalog == t.catalog && u.setups == t.setups;
    GrantStep(t, now, session, action, resource);
    assert u.next !in t.results;
    hide Valid, Local, SameGovernance, BooksOk, SnapshotsOk, GovernStep;
    SameGoverns(t, u);
  }

  // ------------------------------------------------------------ a signature and what it opens

  lemma SignedDebateLocal(t: Tables, m: Tables, u: Tables, user: Id, i: Id, ends: int)
    requires Signed(t, m, user, i) && Debated(m, u, i, ends)
    ensures Local(t, u, i)
  {
    hide Spent, InSnapshot;
  }

  lemma SignedVoteLocal(t: Tables, m: Tables, u: Tables, user: Id, i: Id, env: Env, setup: Id)
    requires Signed(t, m, user, i) && VotingOpened(m, u, env, i, setup) && IdsOk(t)
    ensures Local(t, u, i)
  {
    assert t.next !in t.snapshots;
    hide Spent, InSnapshot, Rules, IdsOk, IsActive, Eligible, Reached;
  }

  lemma SignedDebateRow(t: Tables, m: Tables, u: Tables, user: Id, i: Id, now: int)
    requires Signed(t, m, user, i) && Ahead(t.proposals[i].collectEndsAt, now)
    requires t.proposals[i].kind.NormalLaw? || t.proposals[i].kind.SetupChange?
    requires m.proposals[i].count == m.proposals[i].target.value
    requires t.proposals[i].setupVersion.Some? && t.proposals[i].setupVersion.value in t.setups
    requires var days := Rules(t.setups[t.proposals[i].setupVersion.value].params, t.proposals[i].kind).debateDays;
             days.Some? && Debated(m, u, i, now + days.value * DAY)
    ensures ProposalStep(t, u, i, now) && TablesStep(t, u, i, now)
    ensures u.catalog == t.catalog && u.setups == t.setups
  {
    hide Spent, Rules, InSnapshot;
  }

  lemma SignedVoteRow(t: Tables, m: Tables, u: Tables, user: Id, i: Id, env: Env, setup: Id)
    requires Signed(t, m, user, i) && Ahead(t.proposals[i].collectEndsAt, env.now)
    requires t.proposals[i].kind.UrgentLaw? && t.proposals[i].voteSnapshot.None?
    requires m.proposals[i].count == m.proposals[i].target.value
    requires VotingOpened(m, u, env, i, setup)
    ensures ProposalStep(t, u, i, env.now) && TablesStep(t, u, i, env.now)
    ensures u.catalog == t.catalog && u.setups == t.setups
  {
    hide Spent, Rules, InSnapshot;
  }

  lemma SignedRow(t: Tables, m: Tables, user: Id, i: Id, now: int)
    requires Signed(t, m, user, i) && Ahead(t.proposals[i].collectEndsAt, now)
    ensures ProposalStep(t, m, i, now) && TablesStep(t, m, i, now)
    ensures m.catalog == t.catalog && m.setups == t.setups
  {
    hide Spent, InSnapshot;
  }

  // ------------------------------------------------------------ requests

  /** Stored responses play no part in the step relation. */
  lemma KeysStepped(t: Tables, u: Tables, keys: map<(Id, string), KeyRow>, i: Id, now: int)
    requires Stepped(t, u, i, now)
    ensures Stepped(t, u.(keys := keys), i, now)
  {
    var w := u.(keys := keys);
    assert Local(t, w, i) by {
      hide GovernStep, TablesStep, ProposalStep, SameTerms;
    }
    hide Local;
    assert GovernStep(t, w) by {
      SameGoverns(u, w);
      hide Covered;
    }
  }

  lemma SignGuard(t: Tables, env: Env, actor: Actor, i: Id, key: Option<string>)
    requires SignTx(t, env, actor, i, key).Ok? && SignTx(t, env, actor, i, key).value.0 != t
    ensures i in t.proposals && Ahead(t.proposals[i].collectEndsAt, env.now)
  {
    hide Consume, AdjustCount, CloseCollection, Store;
  }

  lemma CollectingShape(t: Tables, i: Id)
    requires Valid(t) && i in t.proposals && t.proposals[i].status.Collecting?
    ensures t.proposals[i].target.Some? && t.proposals[i].count < t.proposals[i].target.value
    ensures t.proposals[i].voteSnapshot.None?
  {
    assert ProposalOk(t, i) && Shape(t.proposals[i]);
    hide Valid, ProposalOk;
  }

  lemma KnownIds(t: Tables)
    requires Valid(t)
    ensures IdsOk(t)
  {
  }

  lemma SignSteps(t: Tables, env: Env, actor: Actor, i: Id, key: Option<string>)
    requires Valid(t) && SignTx(t, env, actor, i, key).Ok? && SignTx(t, env, actor, i, key).value.0 != t
    ensures Stepped(t, SignTx(t, env, actor, i, key).value.0, i, env.now)
  {
    var u := SignTx(t, env, actor, i, key).value.0;
    SignDelta(t, env, actor, i, key);
    SignGuard(t, env, actor, i, key);
    hide SignTx, Valid, Signed, Consume, CloseCollection, Stepped;
    var m := AfterSigning(t, env, actor, i);
    if m.proposals[i].count < m.proposals[i].target.value {
      SignedSteps(t, m, actor.user, i, env.now);
      KeysStepped(t, m, u.keys, i, env.now);
    } else {
      SignedIs(t, m, actor.user, i);
      CollectingShape(t, i);
      KnownIds(t);
      SignedClosing(t, m, env, actor.user, i);
      KeysStepped(t, CloseCollection(m, env, i, m.proposals[i]).value.0, u.keys, i, env.now);
    }
  }

  lemma SignedSteps(t: Tables, m: Tables, user: Id, i: Id, now: int)
    requires Valid(t) && Signed(t, m, user, i) && Ahead(t.proposals[i].collectEndsAt, now)
    ensures Stepped(t, m, i, now)
  {
    assert BooksOk(t) && SnapshotsOk(t);
    hide *;
    SignedStep(t, m, user, i);
    SignedRow(t, m, user, i, now);
    SameGoverns(t, m);
    FromParts(t, m, i, now);
  }

  lemma SignedClosing(t: Tables, m: Tables, env: Env, user: Id, i: Id)
    requires i in t.proposals && i in m.proposals && Signed(t, m, user, i) && IdsOk(t)
    requires Ahead(t.proposals[i].collectEndsAt, env.now) && t.proposals[i].voteSnapshot.None?
    requires t.proposals[i].target.Some? && t.proposals[i].count < t.proposals[i].target.value
    requires m.proposals[i].target.Some? && m.proposals[i].count >= m.proposals[i].target.value
    requires CloseCollection(m, env, i, m.proposals[i]).Ok?
    ensures Stepped(t, CloseCollection(m, env, i, m.proposals[i]).value.0, i, env.now)
  {
    hide *;
    SignedIs(t, m, user, i);
    var p := m.proposals[i];
    var u := CloseCollection(m, env, i, p).value.0;
    ClosedCollectionDelta(m, env, i);
    if p.kind.UrgentLaw? {
      OpenVotingDelta(m, env, i, p);
      var setup := EffectiveSetup(m, p.jurisdiction).value;
      SignedVoteLocal(t, m, u, user, i, env, setup);
      SignedVoteRow(t, m, u, user, i, env, setup);
    } else {
      var ends := env.now + Rules(m.setups[p.setupVersion.value].params, p.kind).debateDays.value * DAY;
      SignedDebateLocal(t, m, u, user, i, ends);
      SignedDebateRow(t, m, u, user, i, env.now);
    }
    SameGoverns(t, u);
    FromParts(t, u, i, env.now);
  }

  lemma UnsignGuard(t: Tables, env: Env, actor: Actor, i: Id, key: Option<string>)
    requires UnsignTx(t, env, actor, i, key).Ok? && UnsignTx(t, env, actor, i, key).value.0 != t
    ensures i in t.proposals && Ahead(t.proposals[i].collectEndsAt, env.now)
  {
    hide AdjustCount, Store;
  }

  lemma UnsignSteps(t: Tables, env: Env, actor: Actor, i: Id, key: Option<string>)
    requires Valid(t) && UnsignTx(t, env, actor, i, key).Ok? && UnsignTx(t, env, actor, i, key).value.0 != t
    ensures Stepped(t, UnsignTx(t, env, actor, i, key).value.0, i, env.now)
  {
    hide *;
    UnsignDelta(t, env, actor, i, key);
    UnsignGuard(t, env, actor, i, key);
    UnsignedSteps(t, UnsignTx(t, env, actor, i, key).value.0, actor.user, i, env.now);
  }

  lemma CastGuard(t: Tables, env: Env, actor: Actor, i: Id, choice: Choice, consent: bool, key: Option<string>)
    requires CastTx(t, env, actor, i, choice, consent, key).Ok?
             && CastTx(t, env, actor, i, choice, consent, key).value.0 != t
    ensures i in t.proposals && Ahead(t.proposals[i].voteEndsAt, env.now)
  {
    hide Consume, InsertBallot, Store, StoredCount;
  }

  lemma CastSteps(t: Tables, env: Env, actor: Actor, i: Id, choice: Choice, consent: bool, key: Option<string>)
    requires Valid(t)
    requires CastTx(t, env, actor, i, choice, consent, key).Ok?
             && CastTx(t, env, actor, i, choice, consent, key).value.0 != t
    ensures Stepped(t, CastTx(t, env, actor, i, choice, consent, key).value.0, i, env.now)
  {
    hide *;
    CastDelta(t, env, actor, i, choice, consent, key);
    CastGuard(t, env, actor, i, choice, consent, key);
    VotedSteps(t, CastTx(t, env, actor, i, choice, consent, key).value.0, actor.user, i, choice, env.now);
  }

  lemma PublishSteps(t: Tables, env: Env, actor: Actor, i: Id, key: Option<string>)
    requires Valid(t) && PublishTx(t, env, actor, i, key).Ok? && PublishTx(t, env, actor, i, key).value.0 != t
    ensures Stepped(t, PublishTx(t, env, actor, i, key).value.0, i, env.now)
  {
    hide *;
    PublishDelta(t, env, actor, i, key);
    PublishedSteps(t, PublishTx(t, env, actor, i, key).value.0, env, i,
                   EffectiveSetup(t, t.proposals[i].jurisdiction).value);
  }

  lemma SaveDraftSteps(t: Tables, env: Env, actor: Actor, id: Option<Id>, input: DraftInput)
    requires Valid(t) && SaveDraftTx(t, env, actor, id, input).Ok?
    ensures var (u, i) := SaveDraftTx(t, env, actor, id, input).value; Stepped(t, u, i, env.now)
  {
    assert IdsOk(t);
    hide *;
    var (u, i) := SaveDraftTx(t, env, actor, id, input).value;
    SaveDraftDelta(t, env, actor, id, input);
    var j := AuthorJurisdiction(actor, input.level);
    DraftedSteps(t, u, i, PreviousRow(t, i, actor, input.kind, j), input.kind, j, DraftPackage(input).value, env.now);
  }

  lemma StartSteps(t: Tables, env: Env, actor: Actor, params: SetupParams)
    requires Valid(t) && StartTx(t, env, actor, params).Ok?
    ensures var (u, i) := StartTx(t, env, actor, params).value; Stepped(t, u, i, env.now)
  {
    hide *;
    StartDelta(t, env, actor, params);
    BegunSteps(t, StartTx(t, env, actor, params).value.0, env, actor.user, actor.country, params);
  }

  lemma ArchivedSteps(t: Tables, env: Env, i: Id, e: Event)
    requires i in t.proposals
    requires e == ProposalWithdrawn(i, t.proposals[i].status) || e == ProposalArchived(i, t.proposals[i].status)
    requires ArchiveRow(t, env, i, t.proposals[i], e).Ok?
    requires t.proposals[i].status.Draft? || t.proposals[i].status.Collecting? || IsTerminal(t.proposals[i].status)
    requires Valid(t)
    ensures Stepped(t, ArchiveRow(t, env, i, t.proposals[i], e).value, i, env.now)
  {
    hide Valid, RowCheck, ArchiveRow, Ended, Stepped;
    RowsChecked(t, i);
    ArchiveRowDelta(t, env, i, t.proposals[i], e);
    EndedSteps(t, ArchiveRow(t, env, i, t.proposals[i], e).value, i, Archived, env.now);
  }

  lemma RowsChecked(t: Tables, i: Id)
    requires Valid(t) && i in t.proposals
    ensures RowCheck(t.proposals[i])
  {
    assert ProposalOk(t, i) && Shape(t.proposals[i]);
    hide Valid, ProposalOk;
  }

  lemma WithdrawSteps(t: Tables, env: Env, actor: Actor, i: Id)
    requires Valid(t) && WithdrawTx(t, env, actor, i).Ok?
    ensures Stepped(t, WithdrawTx(t, env, actor, i).value, i, env.now)
  {
    hide Valid, ArchiveRow, Stepped;
    ArchivedSteps(t, env, i, ProposalWithdrawn(i, t.proposals[i].status));
  }

  lemma ArchiveSteps(t: Tables, env: Env, actor: Actor, i: Id)
    requires Valid(t) && ArchiveTx(t, env, actor, i).Ok?
    ensures Stepped(t, ArchiveTx(t, env, actor, i).value, i, env.now)
  {
    hide Valid, ArchiveRow, Stepped;
    ArchivedSteps(t, env, i, ProposalArchived(i, t.proposals[i].status));
  }

  lemma AdvanceSteps(t: Tables, env: Env, i: Id)
    requires Valid(t) && i in t.proposals && DeadlinePassed(t.proposals[i], env.now)
    ensures AdvanceTx(t, env, i).Ok? && Stepped(t, AdvanceTx(t, env, i).value.0, i, env.now)
  {
    hide AdvanceTx, OpenVoting, Ended, Valid, Stepped, VotingOpened;
    AdvanceSucceeds(t, env, i);
    AdvanceDelta(t, env, i);
    var (u, to) := AdvanceTx(t, env, i).value;
    if to == Some(InVoting) {
      OpenVotingDelta(t, env, i, t.proposals[i]);
      OpenedSteps(t, u, env, i, EffectiveSetup(t, t.proposals[i].jurisdiction).value);
    } else {
      EndedSteps(t, u, i, to.value, env.now);
    }
  }

  lemma CloseSteps(t: Tables, env: Env, i: Id)
    requires Valid(t) && CloseTx(t, env, i).Ok? && CloseTx(t, env, i).value.1.Some?
    ensures Stepped(t, CloseTx(t, env, i).value.0, i, env.now)
  {
    CloseKeeps(t, env, i);
    assert i in t.proposals && VoteDue(t.proposals[i], env.now);
    OpenVote(t, i);
    hide *;
    var figures := CloseDelta(t, env, i);
    assert Past(t.proposals[i].voteEndsAt, env.now);
    ClosedSteps(t, CloseTx(t, env, i).value.0, i, figures, env.now);
  }
}
