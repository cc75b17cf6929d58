/** Yearly quotas over whole runs: what the stored rows count is what an author published
    (src/application/proposals.rs). */
module Quotas {
  import opened Prelude
  import opened Electoral
  import opened Territory
  import opened Tables
  import opened Transactions
  import opened Integrity
  import opened Preservation
  import opened Decisions
  import opened Drafting
  import opened Closing
  import opened Deadlines
  import opened Steps
  import opened Ledger
  import opened Runs
  import opened Faults
  import opened Theorems

  /** The request turns a draft of the author and kind into a published proposal in that
      civil year. */
  ghost predicate Publishes(t: Tables, action: Action, author: Id, kind: Kind, year: int) {
    && action.request.Publish? && action.request.actor.user == author && action.env.year == year
    && action.request.i in t.proposals && t.proposals[action.request.i].kind == kind
    && t.proposals[action.request.i].status.Draft?
    && action.request.i in Apply(t, action.env, action.request).proposals
    && Apply(t, action.env, action.request).proposals[action.request.i].status.Collecting?
  }

  /** How many requests of a run did. */
  ghost function Publications(t: Tables, run: seq<Action>, author: Id, kind: Kind, year: int): nat {
    if run == [] then 0
    else
      var init, last := run[..|run| - 1], run[|run| - 1];
      Publications(t, init, author, kind, year) + if Publishes(Run(t, init), last, author, kind, year) then 1 else 0
  }

  // ------------------------------------------------------------ only publishing publishes

  lemma Elsewhere(t: Tables, u: Tables, k: Id, now: int, i: Id)
    requires Stepped(t, u, k, now) && i != k && i in t.proposals
    ensures i in u.proposals && u.proposals[i] == t.proposals[i]
  {
    hide ProposalStep, TablesStep, GovernStep;
  }

  lemma GrantedKeeps(t: Tables, now: int, session: Id, action: Critical, resource: Id)
    ensures GrantTx(t, now, session, action, resource).proposals == t.proposals
  {
  }

  lemma DraftedKeeps(t: Tables, env: Env, actor: Actor, id: Option<Id>, input: DraftInput, i: Id)
    requires SaveDraftTx(t, env, actor, id, input).Ok? && i in t.proposals && t.proposals[i].status.Draft? && IdsOk(t)
    ensures var u := SaveDraftTx(t, env, actor, id, input).value.0; i in u.proposals && u.proposals[i].status.Draft?
  {
    SaveDraftDelta(t, env, actor, id, input);
    hide SaveDraftTx, Rejection, ValidParams, Covered, IdsOk;
  }

  lemma CastKeepsRows(t: Tables, env: Env, actor: Actor, i: Id, choice: Choice, consent: bool, key: Option<string>)
    requires CastTx(t, env, actor, i, choice, consent, key).Ok?
    ensures CastTx(t, env, actor, i, choice, consent, key).value.0.proposals == t.proposals
  {
    CastDelta(t, env, actor, i, choice, consent, key);
    hide CastTx, Spent, InSnapshot;
  }

  lemma SignedRowCollects(t: Tables, env: Env, actor: Actor, i: Id, key: Option<string>)
    requires SignTx(t, env, actor, i, key).Ok? && SignTx(t, env, actor, i, key).value.0 != t
    ensures i in t.proposals && t.proposals[i].status.Collecting?
  {
    SignPassed(t, env, actor, i, key);
    hide SignTx;
  }

  lemma UnsignedRowCollects(t: Tables, env: Env, actor: Actor, i: Id, key: Option<string>)
    requires UnsignTx(t, env, actor, i, key).Ok? && UnsignTx(t, env, actor, i, key).value.0 != t
    ensures i in t.proposals && t.proposals[i].status.Collecting?
  {
    UnsignDelta(t, env, actor, i, key);
    hide UnsignTx;
  }

  /** Which row a request other than publishing and drafting touches: never a draft. */
  lemma TouchesNoDraft(t: Tables, env: Env, request: Request, i: Id)
    requires i in t.proposals && t.proposals[i].status.Draft? && !request.Publish? && Valid(t)
    ensures i in Apply(t, env, request).proposals && Apply(t, env, request).proposals[i].status.Draft?
  {
    hide Valid, GrantTx, SaveDraftTx, PublishTx, SignTx, UnsignTx, CastTx, WithdrawTx, ArchiveTx, StartTx, AdvanceTx,
         CloseTx, Stepped, DeadlinePassed, VoteDue, IsTerminal;
    var u := Apply(t, env, request);
    KnownIds(t);
    if u != t {
      match request {
        case Reauthenticate(session, action, resource) => GrantedKeeps(t, env.now, session, action, resource);
        case SaveDraft(actor, id, input) => DraftedKeeps(t, env, actor, id, input, i);
        case Publish(_, _, _) => assert false;
        case Sign(actor, k, key) =>
          SignedRowCollects(t, env, actor, k, key);
          SignSteps(t, env, actor, k, key);
          Elsewhere(t, u, k, env.now, i);
        case Unsign(actor, k, key) =>
          UnsignedRowCollects(t, env, actor, k, key);
          UnsignSteps(t, env, actor, k, key);
          Elsewhere(t, u, k, env.now, i);
        case Cast(actor, k, choice, consent, key) => CastKeepsRows(t, env, actor, k, choice, consent, key);
        case Withdraw(actor, k) =>
          WithdrawIff(t, env, actor, k);
          WithdrawSteps(t, env, actor, k);
          Elsewhere(t, u, k, env.now, i);
        case Archive(actor, k) =>
          ArchivedWasTerminal(t, env, actor, k);
          ArchiveSteps(t, env, actor, k);
          Elsewhere(t, u, k, env.now, i);
        case Start(actor, params) => StartedElsewhere(t, env, actor, params, i);
        case Advance(k) =>
          AdvanceIdle(t, env, k);
          DueIsNoDraft(t.proposals[k], env.now);
          AdvanceSteps(t, env, k);
          Elsewhere(t, u, k, env.now, i);
        case CloseDue(k) =>
          CloseKeeps(t, env, k);
          DueIsNoDraft(t.proposals[k], env.now);
          CloseSteps(t, env, k);
          Elsewhere(t, u, k, env.now, i);
      }
    }
  }

  lemma ArchivedWasTerminal(t: Tables, env: Env, actor: Actor, i: Id)
    requires ArchiveTx(t, env, actor, i).Ok?
    ensures i in t.proposals && !t.proposals[i].status.Draft?
  {
    hide ArchiveRow;
  }

  lemma DueIsNoDraft(p: Proposal, now: int)
    ensures DeadlinePassed(p, now) || VoteDue(p, now) ==> !p.status.Draft?
  {
  }

  lemma StartedElsewhere(t: Tables, env: Env, actor: Actor, params: SetupParams, i: Id)
    requires StartTx(t, env, actor, params).Ok? && i in t.proposals && IdsOk(t)
    ensures var u := StartTx(t, env, actor, params).value.0; i in u.proposals && u.proposals[i] == t.proposals[i]
  {
    StartDelta(t, env, actor, params);
    hide StartTx, ValidParams, Covered, PlebisciteOpen, Rules;
  }

  // ------------------------------------------------------------ the rows counted

  ghost predicate DraftsFree(t: Tables) {
    forall i :: i in t.proposals && t.proposals[i].status.Draft? ==> t.proposals[i].quotaYear.None?
  }

  /** Nothing but the row `k` was published by the request, if anything was. */
  lemma PublishedRow(t: Tables, env: Env, actor: Actor, i: Id, key: Option<string>)
    requires PublishTx(t, env, actor, i, key).Ok? && PublishTx(t, env, actor, i, key).value.0 != t
    requires Sane(env) && Valid(t)
    ensures var u := PublishTx(t, env, actor, i, key).value.0;
            && i in t.proposals && i in u.proposals && t.proposals[i].status.Draft? && u.proposals[i].status.Collecting?
            && t.proposals[i].author == actor.user
            && u.proposals[i].author == actor.user && u.proposals[i].kind == t.proposals[i].kind
            && u.proposals[i].quotaYear == (if t.proposals[i].kind.SetupChange? then None else Some(env.year))
            && forall j :: j != i ==> (j in u.proposals <==> j in t.proposals)
  {
    hide PublishTx, Valid, Sane, LeastShare, PublishedAs, EffectiveSetup;
    PublishedAsPromised(t, env, actor, i, key);
    PublishPassed(t, env, actor, i, key);
    PublishDelta(t, env, actor, i, key);
    PublishedKeys(t, PublishTx(t, env, actor, i, key).value.0, env, i,
                  EffectiveSetup(t, t.proposals[i].jurisdiction).value);
  }

  lemma PublishedKeys(t: Tables, u: Tables, env: Env, i: Id, setup: Id)
    requires PublishedAs(t, u, env, i, setup)
    ensures u.proposals.Keys == t.proposals.Keys
  {
    hide Spent, MinCount, SignatureBp, Rules, Eligible;
  }

  predicate InQuota(p: Proposal, author: Id, kind: Kind, year: int) {
    p.author == author && p.kind == kind && p.quotaYear == Some(year)
  }

  /** A request that does not publish leaves the quota of every row as it was. */
  lemma OtherRow(t: Tables, u: Tables, k: Id, now: int, i: Id)
    requires Stepped(t, u, k, now) && i in u.proposals
    requires i in t.proposals && t.proposals[i].status.Draft? ==> u.proposals[i].status.Draft?
    ensures i !in t.proposals ==> u.proposals[i].quotaYear.None?
    ensures i in t.proposals ==> u.proposals[i].quotaYear == t.proposals[i].quotaYear
    ensures i in t.proposals && !t.proposals[i].status.Draft? ==>
              && u.proposals[i].author == t.proposals[i].author && u.proposals[i].kind == t.proposals[i].kind
              && !u.proposals[i].status.Draft?
  {
    hide TablesStep, GovernStep, Timely, BornAs;
  }

  ghost predicate Counts(t: Tables, u: Tables, i: Id, author: Id, kind: Kind, year: int, published: bool) {
    && (i in u.proposals && InQuota(u.proposals[i], author, kind, year) <==>
          (i in t.proposals && InQuota(t.proposals[i], author, kind, year)) || published)
    && (i in u.proposals && u.proposals[i].status.Draft? ==> u.proposals[i].quotaYear.None?)
  }

  lemma PlainRowCounts(t: Tables, u: Tables, k: Id, now: int, i: Id, author: Id, kind: Kind, year: int)
    requires Stepped(t, u, k, now) && DraftsFree(t)
    requires i in t.proposals ==> i in u.proposals
    requires i in t.proposals && t.proposals[i].status.Draft? ==> u.proposals[i].status.Draft?
    ensures Counts(t, u, i, author, kind, year, false)
  {
    hide Stepped;
    if i in u.proposals {
      OtherRow(t, u, k, now, i);
    }
  }

  lemma KeptRow(t: Tables, u: Tables, k: Id, now: int, i: Id)
    requires Stepped(t, u, k, now) && i in t.proposals
    ensures i in u.proposals
  {
    hide ProposalStep, TablesStep, GovernStep;
  }

  ghost predicate RowAfter(t: Tables, action: Action, author: Id, kind: Kind, year: int, i: Id) {
    Counts(t, Apply(t, action.env, action.request), i, author, kind, year,
           Publishes(t, action, author, kind, year) && action.request.i == i)
  }

  /** A row counts in a quota after a request exactly if it did before or the request just
      published it there. */
  lemma RowCounts(t: Tables, action: Action, author: Id, kind: Kind, year: int, i: Id)
    requires (kind.NormalLaw? || kind.UrgentLaw?) && DraftsFree(t) && Sane(action.env) && Valid(t)
    ensures RowAfter(t, action, author, kind, year, i)
  {
    hide Valid, Apply, Sane, Stepped, PublishTx;
    var env, request := action.env, action.request;
    var u := Apply(t, env, request);
    if u == t {
    } else if request.Publish? {
      AppliedPublish(t, env, request);
      PublishedRow(t, env, request.actor, request.i, request.key);
      if i != request.i && i in t.proposals {
        PublishedOnly(t, action, i);
      }
    } else {
      ApplyMoves(t, env, request);
      var k :| Stepped(t, u, k, env.now);
      if i in t.proposals {
        KeptRow(t, u, k, env.now, i);
        if t.proposals[i].status.Draft? {
          TouchesNoDraft(t, env, request, i);
        }
      }
      PlainRowCounts(t, u, k, env.now, i, author, kind, year);
    }
  }

  lemma AppliedPublish(t: Tables, env: Env, request: Request)
    requires request.Publish? && Apply(t, env, request) != t
    ensures PublishTx(t, env, request.actor, request.i, request.key).Ok?
    ensures Apply(t, env, request) == PublishTx(t, env, request.actor, request.i, request.key).value.0
  {
    hide PublishTx;
  }

  lemma PublishedOnly(t: Tables, action: Action, i: Id)
    requires action.request.Publish? && Apply(t, action.env, action.request) != t && i in t.proposals
             && i != action.request.i
    requires Valid(t)
    ensures i in Apply(t, action.env, action.request).proposals
    ensures Apply(t, action.env, action.request).proposals[i] == t.proposals[i]
  {
    hide Valid, PublishTx, Stepped, Apply;
    AppliedPublish(t, action.env, action.request);
    PublishSteps(t, action.env, action.request.actor, action.request.i, action.request.key);
    Elsewhere(t, Apply(t, action.env, action.request), action.request.i, action.env.now, i);
  }

  lemma RowsCount(t: Tables, action: Action, author: Id, kind: Kind, year: int)
    requires (kind.NormalLaw? || kind.UrgentLaw?) && DraftsFree(t) && Sane(action.env) && Valid(t)
    ensures var u := Apply(t, action.env, action.request);
            && DraftsFree(u)
            && QuotaUsed(u, author, kind, year) ==
               QuotaUsed(t, author, kind, year) + if Publishes(t, action, author, kind, year) then 1 else 0
  {
    hide Valid, Apply, Sane;
    var u := Apply(t, action.env, action.request);
    forall i: Id
      ensures RowAfter(t, action, author, kind, year, i)
    {
      RowCounts(t, action, author, kind, year, i);
    }
    RowsAdd(t, action, author, kind, year);
  }

  lemma RowInQuota(t: Tables, action: Action, author: Id, kind: Kind, year: int, i: Id)
    requires RowAfter(t, action, author, kind, year, i)
    ensures var u := Apply(t, action.env, action.request);
            && (i in QuotaRows(u, author, kind, year) <==>
                  i in QuotaRows(t, author, kind, year)
                  || (Publishes(t, action, author, kind, year) && action.request.i == i))
            && (i in u.proposals && u.proposals[i].status.Draft? ==> u.proposals[i].quotaYear.None?)
  {
    hide Apply, Publishes;
  }

  lemma RowsAdd(t: Tables, action: Action, author: Id, kind: Kind, year: int)
    requires DraftsFree(t) && forall i: Id :: RowAfter(t, action, author, kind, year, i)
    ensures var u := Apply(t, action.env, action.request);
            && DraftsFree(u)
            && QuotaUsed(u, author, kind, year) ==
               QuotaUsed(t, author, kind, year) + if Publishes(t, action, author, kind, year) then 1 else 0
  {
    var u := Apply(t, action.env, action.request);
    if Publishes(t, action, author, kind, year) {
      NewInQuota(t, action, author, kind, year);
    }
    hide Apply, RowAfter, QuotaRows, Publishes;
    forall i | i in u.proposals && u.proposals[i].status.Draft?
      ensures u.proposals[i].quotaYear.None?
    {
      RowInQuota(t, action, author, kind, year, i);
    }
    var before, after := QuotaRows(t, author, kind, year), QuotaRows(u, author, kind, year);
    if Publishes(t, action, author, kind, year) {
      forall i: Id | i in after + before + {action.request.i}
        ensures i in after <==> i in before + {action.request.i}
      {
        RowInQuota(t, action, author, kind, year, i);
      }
      assert after == before + {action.request.i};
    } else {
      forall i: Id | i in after + before
        ensures i in after <==> i in before
      {
        RowInQuota(t, action, author, kind, year, i);
      }
      assert after == before;
    }
  }

  lemma NewInQuota(t: Tables, action: Action, author: Id, kind: Kind, year: int)
    requires Publishes(t, action, author, kind, year) && DraftsFree(t)
    ensures action.request.Publish? && action.request.i !in QuotaRows(t, author, kind, year)
  {
    hide Apply;
  }

  /** The rows the quota counts are as many as the author's publications of the kind in the
      year. */
  lemma {:induction false} QuotaIsCount(catalog: Catalog, run: seq<Action>, author: Id, kind: Kind, year: int)
    requires Forest(catalog) && SaneRun(run) && (kind.NormalLaw? || kind.UrgentLaw?)
    ensures var t := Run(EmptyTables(catalog), run);
            && QuotaUsed(t, author, kind, year) == Publications(EmptyTables(catalog), run, author, kind, year)
            && DraftsFree(t)
  {
    hide Valid, SaneRun, Apply, Publishes, QuotaUsed, DraftsFree, Forest;
    if run == [] {
      NothingCounts(catalog, author, kind, year);
    } else {
      var init, last := run[..|run| - 1], run[|run| - 1];
      SanePrefix(run);
      QuotaIsCount(catalog, init, author, kind, year);
      EmptyIsValid(catalog);
      RunIsValid(EmptyTables(catalog), init);
      RowsCount(Run(EmptyTables(catalog), init), last, author, kind, year);
    }
  }

  lemma NothingCounts(catalog: Catalog, author: Id, kind: Kind, year: int)
    ensures QuotaUsed(EmptyTables(catalog), author, kind, year) == 0 && DraftsFree(EmptyTables(catalog))
  {
  }

  /** The yearly limit of a law in the setup in force for a jurisdiction. */
  ghost predicate LimitIs(t: Tables, j: Id, kind: Kind, limit: nat) {
    && EffectiveSetup(t, j).Some?
    && var params := t.setups[EffectiveSetup(t, j).value].params;
       limit == if kind.UrgentLaw? then params.quotaUrgentPerYear else params.quotaNormalPerYear
  }

  lemma LimitOfRules(t: Tables, j: Id, kind: Kind, limit: nat)
    requires LimitIs(t, j, kind, limit) && (kind.NormalLaw? || kind.UrgentLaw?)
    ensures Rules(t.setups[EffectiveSetup(t, j).value].params, kind).quotaPerYear == Some(limit)
  {
    hide EffectiveSetup;
  }

  /** Over every run a law is published only while its author has published fewer of its
      kind in that year than the setup then in force allows. */
  lemma PublishedBelowLimit(catalog: Catalog, run: seq<Action>, action: Action, author: Id, kind: Kind, limit: nat)
    requires Forest(catalog) && SaneRun(run) && (kind.NormalLaw? || kind.UrgentLaw?)
    requires var t := Run(EmptyTables(catalog), run);
             && Publishes(t, action, author, kind, action.env.year)
             && LimitIs(t, t.proposals[action.request.i].jurisdiction, kind, limit)
    ensures Publications(EmptyTables(catalog), run, author, kind, action.env.year) < limit
  {
    var t := Run(EmptyTables(catalog), run);
    hide *;
    QuotaIsCount(catalog, run, author, kind, action.env.year);
    PublishesParts(t, action, author, kind, action.env.year);
    AppliedPublish(t, action.env, action.request);
    PublishPassed(t, action.env, action.request.actor, action.request.i, action.request.key);
    LimitOfRules(t, t.proposals[action.request.i].jurisdiction, kind, limit);
  }

  lemma PublishesParts(t: Tables, action: Action, author: Id, kind: Kind, year: int)
    requires Publishes(t, action, author, kind, year)
    ensures action.request.Publish? && action.request.actor.user == author && action.request.i in t.proposals
    ensures t.proposals[action.request.i].kind == kind && Apply(t, action.env, action.request) != t
  {
    hide Apply;
  }

  /** If every setup an author's publications met allows at most `n` a year, the author has
      at most `n` of the kind in any year, however the run goes. */
  lemma {:induction false} AtMostLimit(catalog: Catalog, run: seq<Action>, author: Id, kind: Kind, year: int, n: nat)
    requires Forest(catalog) && SaneRun(run) && (kind.NormalLaw? || kind.UrgentLaw?)
    requires forall k :: 0 <= k < |run| ==> Allows(catalog, run, k, kind, n)
    ensures Publications(EmptyTables(catalog), run, author, kind, year) <= n
  {
    hide Forest, SaneRun, Publishes, LimitIs, EffectiveSetup;
    if run != [] {
      var init, last := run[..|run| - 1], run[|run| - 1];
      SanePrefix(run);
      forall k | 0 <= k < |init|
        ensures Allows(catalog, init, k, kind, n)
      {
        assert Allows(catalog, run, k, kind, n) && init[..k] == run[..k];
      }
      AtMostLimit(catalog, init, author, kind, year, n);
      var t := Run(EmptyTables(catalog), init);
      if Publishes(t, last, author, kind, year) {
        assert Allows(catalog, run, |run| - 1, kind, n);
        LimitExists(t, last, author, kind, year);
        var limit: nat :| LimitIs(t, t.proposals[last.request.i].jurisdiction, kind, limit);
        SameYear(t, last, author, kind, year);
        PublishedBelowLimit(catalog, init, last, author, kind, limit);
      }
    }
  }

  /** The setup in force for any jurisdiction before request `k` allows at most `n`. */
  ghost predicate Allows(catalog: Catalog, run: seq<Action>, k: int, kind: Kind, n: nat)
    requires 0 <= k < |run|
  {
    forall j, limit: nat :: LimitIs(Run(EmptyTables(catalog), run[..k]), j, kind, limit) ==> limit <= n
  }

  lemma SameYear(t: Tables, action: Action, author: Id, kind: Kind, year: int)
    requires Publishes(t, action, author, kind, year)
    ensures action.env.year == year
  {
    hide Apply;
  }

  lemma LimitExists(t: Tables, action: Action, author: Id, kind: Kind, year: int)
    requires Publishes(t, action, author, kind, year)
    ensures action.request.Publish? && action.request.i in t.proposals
    ensures exists limit: nat :: LimitIs(t, t.proposals[action.request.i].jurisdiction, kind, limit)
  {
    hide *;
    PublishesParts(t, action, author, kind, year);
    AppliedPublish(t, action.env, action.request);
    PublishPassed(t, action.env, action.request.actor, action.request.i, action.request.key);
    SomeLimit(t, t.proposals[action.request.i].jurisdiction, kind);
  }

  lemma SomeLimit(t: Tables, j: Id, kind: Kind)
    requires EffectiveSetup(t, j).Some?
    ensures exists limit: nat :: LimitIs(t, j, kind, limit)
  {
    var params := t.setups[EffectiveSetup(t, j).value].params;
    assert LimitIs(t, j, kind, if kind.UrgentLaw? then params.quotaUrgentPerYear else params.quotaNormalPerYear);
  }

  /** A publication refused for its quota comes from an author who has already published as
      many laws of the kind in that year as the setup in force allows. */
  lemma RefusedAtLimit(catalog: Catalog, run: seq<Action>, env: Env, actor: Actor, i: Id, key: Option<string>)
    requires Forest(catalog) && SaneRun(run)
    requires PublishTx(Run(EmptyTables(catalog), run), env, actor, i, key) == Err(Conflict(Quota))
    ensures var t := Run(EmptyTables(catalog), run);
            && i in t.proposals && (t.proposals[i].kind.NormalLaw? || t.proposals[i].kind.UrgentLaw?)
            && exists limit: nat ::
                 && LimitIs(t, t.proposals[i].jurisdiction, t.proposals[i].kind, limit)
                 && Publications(EmptyTables(catalog), run, actor.user, t.proposals[i].kind, env.year) >= limit
  {
    var t := Run(EmptyTables(catalog), run);
    hide *;
    RefusedParts(t, env, actor, i, key);
    SomeLimit(t, t.proposals[i].jurisdiction, t.proposals[i].kind);
    var limit: nat :| LimitIs(t, t.proposals[i].jurisdiction, t.proposals[i].kind, limit);
    LimitOfRules(t, t.proposals[i].jurisdiction, t.proposals[i].kind, limit);
    QuotaIsCount(catalog, run, actor.user, t.proposals[i].kind, env.year);
  }

  lemma RefusedParts(t: Tables, env: Env, actor: Actor, i: Id, key: Option<string>)
    requires PublishTx(t, env, actor, i, key) == Err(Conflict(Quota))
    ensures i in t.proposals && (t.proposals[i].kind.NormalLaw? || t.proposals[i].kind.UrgentLaw?)
    ensures EffectiveSetup(t, t.proposals[i].jurisdiction).Some?
    ensures var rules := Rules(t.setups[EffectiveSetup(t, t.proposals[i].jurisdiction).value].params,
                               t.proposals[i].kind);
            rules.quotaPerYear.Some?
            && QuotaUsed(t, actor.user, t.proposals[i].kind, env.year) >= rules.quotaPerYear.value
  {
    hide QuotaUsed, MinCount, SignatureBp, EffectiveSetup, RowCheck;
    if Consume(t, env.now, actor.session, CreateProposal, i).Err? {
    }
    hide Oldest;
  }
}
