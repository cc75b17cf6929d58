/** Reauthentication grants, idempotency keys and the public trail: what one request
    takes, what it records, and that a retry gets the recorded answer. */
module Ledger {
  import opened Prelude
  import opened Electoral
  import opened Territory
  import opened Tables
  import opened Transactions
  import opened Integrity
  import opened Preservation
  import opened Decisions
  import opened Drafting
  import opened Closing
  import opened Deadlines

  predicate ActionFits(e: Event, action: Critical, resource: Id) {
    match e
    case ProposalPublished(i, _) => action.CreateProposal? && resource == i
    case SignatureAdded(i, _, _) => action.SignProposal? && resource == i
    case VoteCast(i, _) => (action.VoteProposal? || action.VoteSetup?) && resource == i
    case _ => false
  }

  /** One unexpired grant of this session for this act on this resource is consumed. */
  ghost predicate Taken(grants: map<Id, Grant>, after: map<Id, Grant>, now: int, session: Id, action: Critical,
                        resource: Id)
  {
    exists g :: g in grants && Usable(grants[g], now, session, action, resource)
                && after == grants[g := grants[g].(consumedAt := Some(now))]
  }

  predicate GrantKept(a: Grant, b: Grant) {
    b == a.(consumedAt := b.consumedAt) && (a.consumedAt.Some? ==> b == a)
  }

  ghost predicate GrantsGrow(grants: map<Id, Grant>, after: map<Id, Grant>) {
    forall g :: g in grants ==> g in after && GrantKept(grants[g], after[g])
  }

  ghost predicate KeysGrow(keys: map<(Id, string), KeyRow>, after: map<(Id, string), KeyRow>) {
    forall k :: k in keys ==> k in after && after[k] == keys[k]
  }

  ghost predicate NoEffectFrom(trail: seq<Event>, n: nat) {
    forall k :: n <= k < |trail| ==> !IsEffect(trail[k])
  }

  /** Nothing critical happened. */
  ghost predicate PlainStep(t: Tables, u: Tables) {
    GrantsGrow(t.grants, u.grants) && NoEffectFrom(u.trail, |t.trail|)
  }

  /** Exactly one critical act happened, paid with exactly one grant. */
  ghost predicate PaidStep(t: Tables, u: Tables, now: int, session: Id, action: Critical, resource: Id) {
    && |t.trail| < |u.trail| && ActionFits(u.trail[|t.trail|], action, resource)
    && NoEffectFrom(u.trail, |t.trail| + 1)
    && Taken(t.grants, u.grants, now, session, action, resource)
  }

  // ------------------------------------------------------------ what each request records

  lemma ConsumeTakes(t: Tables, now: int, session: Id, action: Critical, resource: Id)
    requires Consume(t, now, session, action, resource).Ok?
    ensures var u := Consume(t, now, session, action, resource).value;
            u == t.(grants := u.grants) && Taken(t.grants, u.grants, now, session, action, resource)
  {
    var g := Oldest(t.grants, UsableGrants(t.grants, now, session, action, resource));
    assert g in t.grants && Usable(t.grants[g], now, session, action, resource);
  }

  /** A new key is added, never overwritten. */
  lemma StoreGrows(t: Tables, m: Tables, user: Id, key: Option<string>, action: KeyAction, payload: Payload,
                   response: Response)
    requires Lookup(t, user, key, action, payload) == Ok(None) && m.keys == t.keys
    ensures var u := Store(m, user, key, action, payload, response);
            && KeysGrow(t.keys, u.keys) && u == m.(keys := u.keys)
            && (key.Some? ==>
                  && (user, key.value) in u.keys
                  && u.keys[(user, key.value)] == KeyRow(action, payload, response))
  {
  }

  lemma CloseCollectionLedger(m: Tables, env: Env, i: Id)
    requires i in m.proposals && m.proposals[i].status.Collecting? && CloseCollection(m, env, i, m.proposals[i]).Ok?
    ensures var u := CloseCollection(m, env, i, m.proposals[i]).value.0;
            && u.keys == m.keys && u.grants == m.grants
            && |u.trail| == |m.trail| + 1 && m.trail <= u.trail && u.trail[|m.trail|].PhaseChanged?
  {
    hide CloseCollection, OpenVoting, Rules;
    ClosedCollectionDelta(m, env, i);
    if m.proposals[i].kind.UrgentLaw? {
      OpenVotingDelta(m, env, i, m.proposals[i]);
    }
  }

  ghost predicate Recorded(t: Tables, u: Tables, user: Id, key: Option<string>, row: KeyRow) {
    KeysGrow(t.keys, u.keys) && (key.Some? ==> (user, key.value) in u.keys && u.keys[(user, key.value)] == row)
  }

  lemma PublishLedger(t: Tables, env: Env, actor: Actor, i: Id, key: Option<string>)
    requires PublishTx(t, env, actor, i, key).Ok?
    ensures var (u, response) := PublishTx(t, env, actor, i, key).value;
            u != t ==>
              && Recorded(t, u, actor.user, key, KeyRow(KPublish, OnProposal(i), response))
              && t.trail <= u.trail && PaidStep(t, u, env.now, actor.session, CreateProposal, i)
  {
    var (u, response) := PublishTx(t, env, actor, i, key).value;
    if u != t {
      ConsumeTakes(t, env.now, actor.session, CreateProposal, i);
      hide Consume, Taken, QuotaUsed, MinCount, Rules, Lookup, Store;
      StoreGrows(t, u.(keys := t.keys), actor.user, key, KPublish, OnProposal(i), response);
    }
  }

  lemma CastLedger(t: Tables, env: Env, actor: Actor, i: Id, choice: Choice, consent: bool, key: Option<string>)
    requires CastTx(t, env, actor, i, choice, consent, key).Ok?
    ensures var (u, response) := CastTx(t, env, actor, i, choice, consent, key).value;
            u != t ==>
              && Recorded(t, u, actor.user, key, KeyRow(KCast, OnChoice(i, choice), response))
              && t.trail <= u.trail && i in t.proposals
              && PaidStep(t, u, env.now, actor.session, VoteAction(t.proposals[i].kind), i)
  {
    var (u, response) := CastTx(t, env, actor, i, choice, consent, key).value;
    if u != t {
      ConsumeTakes(t, env.now, actor.session, VoteAction(t.proposals[i].kind), i);
      hide Consume, Taken, Lookup, Store, InSnapshot;
      StoreGrows(t, u.(keys := t.keys), actor.user, key, KCast, OnChoice(i, choice), response);
    }
  }

  lemma UnsignLedger(t: Tables, env: Env, actor: Actor, i: Id, key: Option<string>)
    requires UnsignTx(t, env, actor, i, key).Ok?
    ensures var (u, response) := UnsignTx(t, env, actor, i, key).value;
            u != t ==>
              && Recorded(t, u, actor.user, key, KeyRow(KUnsign, OnProposal(i), response))
              && t.trail <= u.trail && PlainStep(t, u)
  {
    var (u, response) := UnsignTx(t, env, actor, i, key).value;
    if u != t {
      hide Lookup, Store;
      StoreGrows(t, u.(keys := t.keys), actor.user, key, KUnsign, OnProposal(i), response);
    }
  }

  lemma AfterSigningLedger(t: Tables, env: Env, actor: Actor, i: Id)
    requires i in t.proposals && t.proposals[i].target.Some?
    requires Consume(t, env.now, actor.session, SignProposal, i).Ok?
    ensures var m := AfterSigning(t, env, actor, i);
            && m.trail == t.trail + [SignatureAdded(i, t.proposals[i].count + 1, t.proposals[i].target.value)]
            && Taken(t.grants, m.grants, env.now, actor.session, SignProposal, i)
            && i in m.proposals && m.proposals[i] == t.proposals[i].(count := t.proposals[i].count + 1)
  {
    ConsumeTakes(t, env.now, actor.session, SignProposal, i);
    hide Consume, Taken;
  }

  lemma SignPaid(t: Tables, env: Env, actor: Actor, i: Id, key: Option<string>)
    requires SignTx(t, env, actor, i, key).Ok?
    ensures var u := SignTx(t, env, actor, i, key).value.0;
            u != t ==> t.trail <= u.trail && PaidStep(t, u, env.now, actor.session, SignProposal, i)
  {
    hide SignTx, Consume, Taken, CloseCollection, Signed, AfterSigning;
    var u := SignTx(t, env, actor, i, key).value.0;
    if u != t {
      SignDelta(t, env, actor, i, key);
      AfterSigningLedger(t, env, actor, i);
      SignedIs(t, AfterSigning(t, env, actor, i), actor.user, i);
      var m := AfterSigning(t, env, actor, i);
      if m.proposals[i].count >= m.proposals[i].target.value {
        CloseCollectionLedger(m, env, i);
      }
    }
  }

  lemma SignLedger(t: Tables, env: Env, actor: Actor, i: Id, key: Option<string>)
    requires SignTx(t, env, actor, i, key).Ok?
    ensures var (u, response) := SignTx(t, env, actor, i, key).value;
            u != t ==>
              && Recorded(t, u, actor.user, key, KeyRow(KSign, OnProposal(i), response))
              && t.trail <= u.trail && PaidStep(t, u, env.now, actor.session, SignProposal, i)
  {
    hide SignTx, PaidStep, Recorded;
    if SignTx(t, env, actor, i, key).value.0 != t {
      SignStored(t, env, actor, i, key);
      SignPaid(t, env, actor, i, key);
    }
  }

  lemma AdjustedKeys(t: Tables, i: Id, p: Proposal, added: bool)
    requires i in t.proposals && AdjustCount(t, i, p, added).Ok?
    ensures var u := AdjustCount(t, i, p, added).value.0;
            u.keys == t.keys && i in u.proposals && u.proposals[i].status.Collecting?
            && u.proposals[i] == t.proposals[i].(count := u.proposals[i].count)
            && u.proposals[i].count == AdjustCount(t, i, p, added).value.1
  {
  }

  lemma SignStored(t: Tables, env: Env, actor: Actor, i: Id, key: Option<string>)
    requires SignTx(t, env, actor, i, key).Ok? && SignTx(t, env, actor, i, key).value.0 != t
    ensures var (u, response) := SignTx(t, env, actor, i, key).value;
            Recorded(t, u, actor.user, key, KeyRow(KSign, OnProposal(i), response))
  {
    var (u, response) := SignTx(t, env, actor, i, key).value;
    var p := OpenCollection(t, env.now, i).value;
    var t1 := Consume(t, env.now, actor.session, SignProposal, i).value;
    ConsumeTakes(t, env.now, actor.session, SignProposal, i);
    var t2 := t1.(signatures := t1.signatures[(i, actor.user) := true]);
    AdjustedKeys(t2, i, p, true);
    var (t3, count) := AdjustCount(t2, i, p, true).value;
    var t4 := Log(t3, SignatureAdded(i, count, p.target.value));
    hide Consume, Taken, AdjustCount, InSnapshot;
    if count >= p.target.value {
      assert t4.proposals[i] == p.(count := count);
      CloseCollectionLedger(t4, env, i);
    }
    hide CloseCollection, Lookup, Store;
    StoreGrows(t, u.(keys := t.keys), actor.user, key, KSign, OnProposal(i), response);
  }

  lemma EndedLedger(t: Tables, u: Tables, i: Id, to: Status)
    requires Ended(t, u, i, to)
    ensures u.keys == t.keys && t.trail <= u.trail && PlainStep(t, u)
  {
    hide Rejection, RowCheck;
  }

  lemma OpenedLedger(t: Tables, u: Tables, env: Env, i: Id, setup: Id)
    requires VotingOpened(t, u, env, i, setup)
    ensures u.keys == t.keys && t.trail <= u.trail && PlainStep(t, u)
  {
    hide Rules;
  }

  lemma ClosedLedger(t: Tables, u: Tables, i: Id, figures: ResultCalc, now: int)
    requires Closed(t, u, i, figures, now)
    ensures u.keys == t.keys && t.trail <= u.trail && PlainStep(t, u)
  {
    hide Counted, ResultRow, Adopts, Rejection;
  }

  lemma AdvanceLedger(t: Tables, env: Env, i: Id)
    requires AdvanceTx(t, env, i).Ok?
    ensures var u := AdvanceTx(t, env, i).value.0; u.keys == t.keys && t.trail <= u.trail && PlainStep(t, u)
  {
    AdvanceDelta(t, env, i);
    hide AdvanceTx, OpenVoting, Ended, VotingOpened;
    var (u, to) := AdvanceTx(t, env, i).value;
    if to == Some(InVoting) {
      OpenVotingDelta(t, env, i, t.proposals[i]);
      OpenedLedger(t, u, env, i, EffectiveSetup(t, t.proposals[i].jurisdiction).value);
    } else if to.Some? {
      EndedLedger(t, u, i, to.value);
    }
  }

  lemma CloseLedger(t: Tables, env: Env, i: Id)
    requires Valid(t) && CloseTx(t, env, i).Ok?
    ensures var u := CloseTx(t, env, i).value.0; u.keys == t.keys && t.trail <= u.trail && PlainStep(t, u)
  {
    CloseKeeps(t, env, i);
    hide CloseTx, Valid, Closed;
    if CloseTx(t, env, i).value.1.Some? {
      OpenVote(t, i);
      var figures := CloseDelta(t, env, i);
      ClosedLedger(t, CloseTx(t, env, i).value.0, i, figures, env.now);
    }
  }

  lemma SaveDraftLedger(t: Tables, env: Env, actor: Actor, id: Option<Id>, input: DraftInput)
    requires IdsOk(t) && SaveDraftTx(t, env, actor, id, input).Ok?
    ensures var u := SaveDraftTx(t, env, actor, id, input).value.0;
            u.keys == t.keys && u.trail == t.trail && PlainStep(t, u)
  {
    SaveDraftDelta(t, env, actor, id, input);
    hide SaveDraftTx, Rejection, ValidParams, Covered, RowCheck, IdsOk;
  }

  lemma StartLedger(t: Tables, env: Env, actor: Actor, params: SetupParams)
    requires StartTx(t, env, actor, params).Ok?
    ensures var u := StartTx(t, env, actor, params).value.0; u.keys == t.keys && t.trail <= u.trail && PlainStep(t, u)
  {
    StartDelta(t, env, actor, params);
    hide StartTx, ValidParams, Covered, PlebisciteOpen, Rules;
  }

  lemma GrantLedger(t: Tables, now: int, session: Id, action: Critical, resource: Id)
    requires IdsOk(t)
    ensures var u := GrantTx(t, now, session, action, resource);
            u.keys == t.keys && u.trail == t.trail && PlainStep(t, u)
  {
    assert t.next !in t.grants;
  }
}
