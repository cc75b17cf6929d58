/** Whole runs: any sequence of requests, each in its own transaction, failures rolled
    back, with the clock read by each transaction. */
module Runs {
  import opened Prelude
  import opened Electoral
  import opened Territory
  import opened Tables
  import opened Transactions
  import opened Integrity
  import opened Preservation
  import opened Decisions
  import opened Drafting
  import opened Closing
  import opened Deadlines
  import opened Steps
  import opened Ledger

  datatype Request =
    | Reauthenticate(session: Id, action: Critical, resource: Id)
    | SaveDraft(actor: Actor, id: Option<Id>, input: DraftInput)
    | Publish(actor: Actor, i: Id, key: Option<string>)
    | Sign(actor: Actor, i: Id, key: Option<string>)
    | Unsign(actor: Actor, i: Id, key: Option<string>)
    | Cast(actor: Actor, i: Id, choice: Choice, consent: bool, key: Option<string>)
    | Withdraw(actor: Actor, i: Id)
    | Archive(actor: Actor, i: Id)
    | Start(actor: Actor, params: SetupParams)
    | Advance(i: Id)
    | CloseDue(i: Id)

  /** What a request would commit, `None` when it fails. */
  ghost function Outcome(t: Tables, env: Env, request: Request): Option<Tables> {
    match request
    case Reauthenticate(session, action, resource) => Some(GrantTx(t, env.now, session, action, resource))
    case SaveDraft(actor, id, input) => Committed(SaveDraftTx(t, env, actor, id, input))
    case Publish(actor, i, key) => Committed(PublishTx(t, env, actor, i, key))
    case Sign(actor, i, key) => Committed(SignTx(t, env, actor, i, key))
    case Unsign(actor, i, key) => Committed(UnsignTx(t, env, actor, i, key))
    case Cast(actor, i, choice, consent, key) => Committed(CastTx(t, env, actor, i, choice, consent, key))
    case Withdraw(actor, i) => WithdrawTx(t, env, actor, i).Optional()
    case Archive(actor, i) => ArchiveTx(t, env, actor, i).Optional()
    case Start(actor, params) => Committed(StartTx(t, env, actor, params))
    case Advance(i) => Committed(AdvanceTx(t, env, i))
    case CloseDue(i) => Committed(CloseTx(t, env, i))
  }

  function Committed<T>(r: Result<(Tables, T)>): Option<Tables> {
    if r.Ok? then Some(r.value.0) else None
  }

  /** The tables after a request: a failed transaction leaves them as they were. */
  ghost function Apply(t: Tables, env: Env, request: Request): Tables {
    if Outcome(t, env, request).Some? then Outcome(t, env, request).value else t
  }

  datatype Action = Action(env: Env, request: Request)

  ghost function Run(t: Tables, run: seq<Action>): Tables {
    if run == [] then t
    else
      var last := run[|run| - 1];
      Apply(Run(t, run[..|run| - 1]), last.env, last.request)
  }

  ghost predicate SaneRun(run: seq<Action>) { forall k :: 0 <= k < |run| ==> Sane(run[k].env) }

  // ------------------------------------------------------------ one request

  lemma ApplyKeeps(t: Tables, env: Env, request: Request)
    requires Valid(t) && Sane(env)
    ensures Valid(Apply(t, env, request))
  {
    hide Valid, GrantTx, SaveDraftTx, PublishTx, SignTx, UnsignTx, CastTx, WithdrawTx, ArchiveTx, StartTx, AdvanceTx,
         CloseTx;
    if Outcome(t, env, request).Some? {
      match request
      case Reauthenticate(session, action, resource) => GrantKeeps(t, env.now, session, action, resource);
      case SaveDraft(actor, id, input) => SaveDraftKeeps(t, env, actor, id, input);
      case Publish(actor, i, key) => PublishKeeps(t, env, actor, i, key);
      case Sign(actor, i, key) => SignKeeps(t, env, actor, i, key);
      case Unsign(actor, i, key) => UnsignKeeps(t, env, actor, i, key);
      case Cast(actor, i, choice, consent, key) => CastKeeps(t, env, actor, i, choice, consent, key);
      case Withdraw(actor, i) => WithdrawKeeps(t, env, actor, i);
      case Archive(actor, i) => ArchiveKeeps(t, env, actor, i);
      case Start(actor, params) => StartKeeps(t, env, actor, params);
      case Advance(i) => AdvanceKeeps(t, env, i);
      case CloseDue(i) => CloseKeeps(t, env, i);
    }
  }

  ghost predicate Moved(t: Tables, u: Tables, now: int) { u == t || exists i :: Stepped(t, u, i, now) }

  lemma ApplyMoves(t: Tables, env: Env, request: Request)
    requires Valid(t)
    ensures Moved(t, Apply(t, env, request), env.now)
  {
    hide Valid, GrantTx, SaveDraftTx, PublishTx, SignTx, UnsignTx, CastTx, WithdrawTx, ArchiveTx, StartTx, AdvanceTx,
         CloseTx, Stepped, DeadlinePassed;
    if Apply(t, env, request) != t {
      match request
      case Reauthenticate(session, action, resource) => GrantSteps(t, env.now, session, action, resource);
      case SaveDraft(actor, id, input) => SaveDraftSteps(t, env, actor, id, input);
      case Publish(actor, i, key) => PublishSteps(t, env, actor, i, key);
      case Sign(actor, i, key) => SignSteps(t, env, actor, i, key);
      case Unsign(actor, i, key) => UnsignSteps(t, env, actor, i, key);
      case Cast(actor, i, choice, consent, key) => CastSteps(t, env, actor, i, choice, consent, key);
      case Withdraw(actor, i) => WithdrawSteps(t, env, actor, i);
      case Archive(actor, i) => ArchiveSteps(t, env, actor, i);
      case Start(actor, params) => StartSteps(t, env, actor, params);
      case Advance(i) =>
        AdvanceIdle(t, env, i);
        AdvanceSteps(t, env, i);
      case CloseDue(i) =>
        CloseKeeps(t, env, i);
        CloseSteps(t, env, i);
    }
  }

  lemma AdvanceIdle(t: Tables, env: Env, i: Id)
    requires AdvanceTx(t, env, i).Ok? && AdvanceTx(t, env, i).value.0 != t
    ensures i in t.proposals && DeadlinePassed(t.proposals[i], env.now)
  {
    hide OpenVoting, EndPhase;
  }

  /** The session a request acts for and the act it pays for, if it is a critical one. */
  function Charged(t: Tables, request: Request): Option<(Id, Critical, Id)> {
    match request
    case Publish(actor, i, _) => Some((actor.session, CreateProposal, i))
    case Sign(actor, i, _) => Some((actor.session, SignProposal, i))
    case Cast(actor, i, _, _, _) =>
      if i in t.proposals then Some((actor.session, VoteAction(t.proposals[i].kind), i)) else None
    case _ => None
  }

  /** Keys and trail only grow, and the request either does nothing critical or does its
      one critical act, paid with one grant of the session it came from. */
  ghost predicate RecordStep(t: Tables, u: Tables, now: int, request: Request) {
    && KeysGrow(t.keys, u.keys) && t.trail <= u.trail
    && (PlainStep(t, u) ||
        (Charged(t, request).Some?
         && var (session, action, resource) := Charged(t, request).value;
            PaidStep(t, u, now, session, action, resource)))
  }

  lemma PlainRecords(t: Tables, u: Tables, now: int, request: Request)
    requires u.keys == t.keys && t.trail <= u.trail && PlainStep(t, u)
    ensures RecordStep(t, u, now, request)
  {
    hide PlainStep, PaidStep;
  }

  lemma PaidRecords(t: Tables, u: Tables, now: int, request: Request)
    requires KeysGrow(t.keys, u.keys) && t.trail <= u.trail && Charged(t, request).Some?
    requires var (session, action, resource) := Charged(t, request).value;
             PaidStep(t, u, now, session, action, resource)
    ensures RecordStep(t, u, now, request)
  {
    hide PlainStep, PaidStep, KeysGrow;
  }

  lemma UnsignRecords(t: Tables, u: Tables, now: int, request: Request)
    requires KeysGrow(t.keys, u.keys) && t.trail <= u.trail && PlainStep(t, u)
    ensures RecordStep(t, u, now, request)
  {
    hide PlainStep, PaidStep, KeysGrow;
  }

  lemma SameRecords(t: Tables, now: int, request: Request)
    ensures RecordStep(t, t, now, request)
  {
  }

  lemma ArchiveRecords(t: Tables, env: Env, i: Id, e: Event, request: Request)
    requires i in t.proposals
    requires e == ProposalWithdrawn(i, t.proposals[i].status) || e == ProposalArchived(i, t.proposals[i].status)
    requires ArchiveRow(t, env, i, t.proposals[i], e).Ok?
    requires t.proposals[i].status.Draft? || t.proposals[i].status.Collecting? || IsTerminal(t.proposals[i].status)
    requires RowCheck(t.proposals[i])
    ensures RecordStep(t, ArchiveRow(t, env, i, t.proposals[i], e).value, env.now, request)
  {
    hide ArchiveRow, Ended, RecordStep, RowCheck, PlainStep;
    ArchiveRowDelta(t, env, i, t.proposals[i], e);
    var u := ArchiveRow(t, env, i, t.proposals[i], e).value;
    EndedLedger(t, u, i, Archived);
    PlainRecords(t, u, env.now, request);
  }

  lemma WithdrawRecords(t: Tables, env: Env, actor: Actor, i: Id, request: Request)
    requires WithdrawTx(t, env, actor, i).Ok? && Valid(t)
    ensures RecordStep(t, WithdrawTx(t, env, actor, i).value, env.now, request)
  {
    hide Valid, ArchiveRow, RecordStep;
    RowsChecked(t, i);
    ArchiveRecords(t, env, i, ProposalWithdrawn(i, t.proposals[i].status), request);
  }

  lemma ArchivingRecords(t: Tables, env: Env, actor: Actor, i: Id, request: Request)
    requires ArchiveTx(t, env, actor, i).Ok? && Valid(t)
    ensures RecordStep(t, ArchiveTx(t, env, actor, i).value, env.now, request)
  {
    hide Valid, ArchiveRow, RecordStep;
    RowsChecked(t, i);
    ArchiveRecords(t, env, i, ProposalArchived(i, t.proposals[i].status), request);
  }

  /** Every request adds to the keys and to the trail, and either does nothing critical
      or does one critical act paid with one grant of its own session. */
  lemma ApplyRecords(t: Tables, env: Env, request: Request)
    requires Valid(t)
    ensures RecordStep(t, Apply(t, env, request), env.now, request)
  {
    hide Valid, GrantTx, SaveDraftTx, PublishTx, SignTx, UnsignTx, CastTx, WithdrawTx, ArchiveTx, StartTx, AdvanceTx,
         CloseTx,
         PlainStep, PaidStep, RecordStep, KeysGrow, GrantsGrow;
    var u := Apply(t, env, request);
    if u == t {
      SameRecords(t, env.now, request);
    } else {
      match request
      case Reauthenticate(session, action, resource) =>
        KnownIds(t);
        GrantLedger(t, env.now, session, action, resource);
        PlainRecords(t, u, env.now, request);
      case SaveDraft(actor, id, input) =>
        KnownIds(t);
        SaveDraftLedger(t, env, actor, id, input);
        PlainRecords(t, u, env.now, request);
      case Publish(actor, i, key) =>
        PublishLedger(t, env, actor, i, key);
        PaidRecords(t, u, env.now, request);
      case Sign(actor, i, key) =>
        SignLedger(t, env, actor, i, key);
        PaidRecords(t, u, env.now, request);
      case Unsign(actor, i, key) =>
        UnsignLedger(t, env, actor, i, key);
        UnsignRecords(t, u, env.now, request);
      case Cast(actor, i, choice, consent, key) =>
        CastLedger(t, env, actor, i, choice, consent, key);
        PaidRecords(t, u, env.now, request);
      case Withdraw(actor, i) => WithdrawRecords(t, env, actor, i, request);
      case Archive(actor, i) => ArchivingRecords(t, env, actor, i, request);
      case Start(actor, params) =>
        StartLedger(t, env, actor, params);
        PlainRecords(t, u, env.now, request);
      case Advance(i) =>
        AdvanceLedger(t, env, i);
        PlainRecords(t, u, env.now, request);
      case CloseDue(i) =>
        CloseLedger(t, env, i);
        PlainRecords(t, u, env.now, request);
    }
  }

  // ------------------------------------------------------------ safety over runs

  lemma SanePrefix(run: seq<Action>)
    requires SaneRun(run) && run != []
    ensures SaneRun(run[..|run| - 1]) && Sane(run[|run| - 1].env)
  {
    hide Sane;
  }

  /** The whole invariant, and with it the integrity query, holds after every run. */
  lemma {:induction false} RunIsValid(t: Tables, run: seq<Action>)
    requires Valid(t) && SaneRun(run)
    ensures Valid(Run(t, run))
  {
    hide Valid, SaneRun, Apply;
    if run != [] {
      SanePrefix(run);
      RunIsValid(t, run[..|run| - 1]);
      ApplyKeeps(Run(t, run[..|run| - 1]), run[|run| - 1].env, run[|run| - 1].request);
    }
  }

  /** What a run keeps of the rows that were there when it started. */
  predicate StatusKept(p: Proposal, q: Proposal) {
    q.status == p.status || Rank(p.status) < Rank(q.status)
  }

  ghost predicate RowKept(t: Tables, u: Tables, i: Id)
    requires i in t.proposals
  {
    i in u.proposals
    && var p, q := t.proposals[i], u.proposals[i];
       && StatusKept(p, q)
       && (!p.status.Draft? ==> KeptTerms(p, q))
       && (p.voteSnapshot.Some? ==> KeptVote(p, q))
       && (p.status.Archived? ==> q == p)
  }

  ghost predicate Kept(t: Tables, u: Tables) {
    && u.catalog == t.catalog
    && (forall i :: i in t.proposals ==> RowKept(t, u, i))
    && (forall s :: s in t.snapshots ==> s in u.snapshots && u.snapshots[s] == t.snapshots[s])
    && (forall v :: v in t.setups ==> v in u.setups && SameTerms(t.setups[v], u.setups[v]))
    && (forall k :: Covered(t, k) ==> Covered(u, k))
  }

  lemma StepKeepsRow(t: Tables, u: Tables, i: Id, now: int, j: Id)
    requires Stepped(t, u, i, now) && j in t.proposals
    ensures RowKept(t, u, j)
  {
    if j == i {
      assert RowStep(u.setups, t.proposals[i], u.proposals[i], now);
      if u.proposals[i].status != t.proposals[i].status {
        EdgeRises(t.proposals[i].kind, t.proposals[i].status, u.proposals[i].status);
      }
      hide Local, GovernStep, TablesStep, Timely, Edge;
    }
  }

  lemma StepKeeps(t: Tables, u: Tables, i: Id, now: int)
    requires Stepped(t, u, i, now)
    ensures Kept(t, u)
  {
    forall j | j in t.proposals
      ensures RowKept(t, u, j)
    {
      StepKeepsRow(t, u, i, now, j);
    }
    hide RowKept, ProposalStep, TablesStep, Covered, SameTerms;
    assert forall v :: v in t.setups ==> SetupStep(t.setups[v], u.setups[v]);
  }

  lemma KeptTransRow(t: Tables, m: Tables, u: Tables, i: Id)
    requires i in t.proposals && RowKept(t, m, i) && RowKept(m, u, i)
    ensures RowKept(t, u, i)
  {
  }

  lemma KeptTrans(t: Tables, m: Tables, u: Tables)
    requires Kept(t, m) && Kept(m, u)
    ensures Kept(t, u)
  {
    forall i | i in t.proposals
      ensures RowKept(t, u, i)
    {
      assert RowKept(t, m, i) && RowKept(m, u, i);
      KeptTransRow(t, m, u, i);
    }
    hide RowKept, Covered;
  }

  /** Over any run statuses only rise, terms are fixed at publication, the rules, voters
      and deadline of a vote are fixed when it opens, archived rows are final, snapshots
      never change and a jurisdiction once covered by a setup stays covered. */
  lemma {:induction false} RunKeeps(t: Tables, run: seq<Action>)
    requires Valid(t) && SaneRun(run)
    ensures Kept(t, Run(t, run))
  {
    hide Valid, SaneRun, Apply, Kept, Stepped;
    if run == [] {
      KeptSelf(t);
    } else {
      var init, last := run[..|run| - 1], run[|run| - 1];
      SanePrefix(run);
      RunIsValid(t, init);
      RunKeeps(t, init);
      var m := Run(t, init);
      var u := Apply(m, last.env, last.request);
      ApplyMoves(m, last.env, last.request);
      if u != m {
        var i :| Stepped(m, u, i, last.env.now);
        StepKeeps(m, u, i, last.env.now);
        KeptTrans(t, m, u);
      }
    }
  }

  lemma KeptSelf(t: Tables)
    ensures Kept(t, t)
  {
    hide Covered;
  }
}
