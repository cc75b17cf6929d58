/** Retried requests and paid acts over whole runs: a recorded key answers for ever, and
    every critical act has a reauthentication grant of its own. */
module Retries {
  import opened Prelude
  import opened Electoral
  import opened Territory
  import opened Tables
  import opened Transactions
  import opened Integrity
  import opened Preservation
  import opened Ledger
  import opened Runs

  lemma KeysTrans(a: map<(Id, string), KeyRow>, b: map<(Id, string), KeyRow>, c: map<(Id, string), KeyRow>)
    requires KeysGrow(a, b) && KeysGrow(b, c)
    ensures KeysGrow(a, c)
  {
  }

  lemma {:induction false} RunKeysGrow(t: Tables, run: seq<Action>)
    requires Valid(t) && SaneRun(run)
    ensures KeysGrow(t.keys, Run(t, run).keys)
  {
    hide Valid, SaneRun, Apply, PlainStep, PaidStep;
    if run != [] {
      var init, last := run[..|run| - 1], run[|run| - 1];
      SanePrefix(run);
      RunKeysGrow(t, init);
      RunIsValid(t, init);
      ApplyRecords(Run(t, init), last.env, last.request);
      hide KeysGrow;
      KeysTrans(t.keys, Run(t, init).keys, Run(t, run).keys);
    }
  }

  predicate Holds(t: Tables, user: Id, key: string, row: KeyRow) {
    (user, key) in t.keys && t.keys[(user, key)] == row
  }

  lemma RunHolds(t: Tables, run: seq<Action>, user: Id, key: string, row: KeyRow)
    requires Valid(t) && SaneRun(run) && Holds(t, user, key, row)
    ensures Holds(Run(t, run), user, key, row)
  {
    RunKeysGrow(t, run);
    hide Valid, SaneRun, Run;
  }

  // ------------------------------------------------------------ what a success records

  lemma SignHolds(t: Tables, env: Env, actor: Actor, i: Id, key: string)
    requires SignTx(t, env, actor, i, Some(key)).Ok?
    ensures var (u, response) := SignTx(t, env, actor, i, Some(key)).value;
            Holds(u, actor.user, key, KeyRow(KSign, OnProposal(i), response))
  {
    var (u, response) := SignTx(t, env, actor, i, Some(key)).value;
    if Lookup(t, actor.user, Some(key), KSign, OnProposal(i)) == Ok(None) {
      SignStored(t, env, actor, i, Some(key));
    } else {
      hide Consume, AdjustCount, CloseCollection, Store, OpenCollection;
    }
  }

  lemma PublishHolds(t: Tables, env: Env, actor: Actor, i: Id, key: string)
    requires PublishTx(t, env, actor, i, Some(key)).Ok?
    ensures var (u, response) := PublishTx(t, env, actor, i, Some(key)).value;
            Holds(u, actor.user, key, KeyRow(KPublish, OnProposal(i), response))
  {
    hide Consume, TakeSnapshot, QuotaUsed, MinCount, Rules, Put;
  }

  lemma CastHolds(t: Tables, env: Env, actor: Actor, i: Id, choice: Choice, consent: bool, key: string)
    requires CastTx(t, env, actor, i, choice, consent, Some(key)).Ok?
    ensures var (u, response) := CastTx(t, env, actor, i, choice, consent, Some(key)).value;
            Holds(u, actor.user, key, KeyRow(KCast, OnChoice(i, choice), response))
  {
    hide Consume, InsertBallot, StoredCount;
  }

  lemma UnsignHolds(t: Tables, env: Env, actor: Actor, i: Id, key: string)
    requires UnsignTx(t, env, actor, i, Some(key)).Ok?
    ensures var (u, response) := UnsignTx(t, env, actor, i, Some(key)).value;
            Holds(u, actor.user, key, KeyRow(KUnsign, OnProposal(i), response))
  {
    hide AdjustCount;
  }

  // ------------------------------------------------------------ exactly-once requests

  /** Retrying a successful signature, after anything else has happened and from any
      session of the account, returns the first answer and changes nothing. */
  lemma SignRetried(t: Tables, env: Env, actor: Actor, i: Id, key: string, run: seq<Action>, later: Env, again: Actor)
    requires Valid(t) && Sane(env) && SaneRun(run) && SignTx(t, env, actor, i, Some(key)).Ok?
    requires again.user == actor.user && MaySign in again.may && SignaturesFlag in later.flags
    ensures var (u, response) := SignTx(t, env, actor, i, Some(key)).value;
            var w := Run(u, run);
            SignTx(w, later, again, i, Some(key)) == Ok((w, response))
  {
    var (u, response) := SignTx(t, env, actor, i, Some(key)).value;
    SignHolds(t, env, actor, i, key);
    SignKeeps(t, env, actor, i, Some(key));
    RunHolds(u, run, actor.user, key, KeyRow(KSign, OnProposal(i), response));
    hide Valid, Run, SaneRun, Consume, AdjustCount, CloseCollection, Store, OpenCollection;
  }

  lemma PublishRetried(t: Tables, env: Env, actor: Actor, i: Id, key: string, run: seq<Action>, later: Env,
                       again: Actor)
    requires Valid(t) && Sane(env) && SaneRun(run) && PublishTx(t, env, actor, i, Some(key)).Ok?
    requires again.user == actor.user && MayCreate in again.may && ProposalsFlag in later.flags
    ensures var (u, response) := PublishTx(t, env, actor, i, Some(key)).value;
            var w := Run(u, run);
            PublishTx(w, later, again, i, Some(key)) == Ok((w, response))
  {
    var (u, response) := PublishTx(t, env, actor, i, Some(key)).value;
    PublishHolds(t, env, actor, i, key);
    PublishKeeps(t, env, actor, i, Some(key));
    RunHolds(u, run, actor.user, key, KeyRow(KPublish, OnProposal(i), response));
    hide Valid, Run, SaneRun, Consume, TakeSnapshot, QuotaUsed, MinCount, Rules, Put, Store;
  }

  lemma CastRetried(t: Tables, env: Env, actor: Actor, i: Id, choice: Choice, key: string, run: seq<Action>,
                    later: Env, again: Actor)
    requires Valid(t) && Sane(env) && SaneRun(run) && CastTx(t, env, actor, i, choice, true, Some(key)).Ok?
    requires again.user == actor.user && {ProposalsFlag, VotingFlag} <= later.flags
    ensures var (u, response) := CastTx(t, env, actor, i, choice, true, Some(key)).value;
            var w := Run(u, run);
            CastTx(w, later, again, i, choice, true, Some(key)) == Ok((w, response))
  {
    var (u, response) := CastTx(t, env, actor, i, choice, true, Some(key)).value;
    CastHolds(t, env, actor, i, choice, true, key);
    CastKeeps(t, env, actor, i, choice, true, Some(key));
    RunHolds(u, run, actor.user, key, KeyRow(KCast, OnChoice(i, choice), response));
    hide Valid, Run, SaneRun, Consume, InsertBallot, StoredCount, Store;
  }

  lemma UnsignRetried(t: Tables, env: Env, actor: Actor, i: Id, key: string, run: seq<Action>, later: Env, again: Actor)
    requires Valid(t) && SaneRun(run) && UnsignTx(t, env, actor, i, Some(key)).Ok?
    requires again.user == actor.user && MaySign in again.may && SignaturesFlag in later.flags
    ensures var (u, response) := UnsignTx(t, env, actor, i, Some(key)).value;
            var w := Run(u, run);
            UnsignTx(w, later, again, i, Some(key)) == Ok((w, response))
  {
    var (u, response) := UnsignTx(t, env, actor, i, Some(key)).value;
    UnsignHolds(t, env, actor, i, key);
    UnsignKeeps(t, env, actor, i, Some(key));
    RunHolds(u, run, actor.user, key, KeyRow(KUnsign, OnProposal(i), response));
    hide Valid, Run, SaneRun, AdjustCount, Store, OpenCollection;
  }

  /** The same key with another act, proposal or choice is a conflict. */
  lemma ReusedKeyConflicts(t: Tables, env: Env, actor: Actor, key: string, row: KeyRow, i: Id, choice: Choice)
    requires Holds(t, actor.user, key, row) && {ProposalsFlag, SignaturesFlag, VotingFlag} <= env.flags
    requires {MayCreate, MaySign} <= actor.may
    ensures (row.action, row.payload) != (KPublish, OnProposal(i)) ==>
              PublishTx(t, env, actor, i, Some(key)) == Err(Conflict(KeyReused))
    ensures (row.action, row.payload) != (KSign, OnProposal(i)) ==>
              SignTx(t, env, actor, i, Some(key)) == Err(Conflict(KeyReused))
    ensures (row.action, row.payload) != (KUnsign, OnProposal(i)) ==>
              UnsignTx(t, env, actor, i, Some(key)) == Err(Conflict(KeyReused))
    ensures (row.action, row.payload) != (KCast, OnChoice(i, choice)) ==>
              CastTx(t, env, actor, i, choice, true, Some(key)) == Err(Conflict(KeyReused))
  {
    hide Consume, InsertBallot, StoredCount, Store, AdjustCount, CloseCollection, OpenCollection, TakeSnapshot,
         QuotaUsed, MinCount, Rules, Put;
  }

  // ------------------------------------------------------------ one grant per act

  /** An assignment of a distinct consumed, matching grant to every critical act. */
  ghost predicate Pays(t: Tables, m: map<int, Id>) {
    && (forall k :: k in m <==> 0 <= k < |t.trail| && IsEffect(t.trail[k]))
    && (forall k :: k in m ==> PaidBy(t, k, m[k]))
    && (forall k, l :: k in m && l in m && k != l ==> m[k] != m[l])
  }

  ghost predicate PaidBy(t: Tables, k: int, g: Id)
    requires 0 <= k < |t.trail|
  {
    && g in t.grants && t.grants[g].consumedAt.Some? && t.grants[g].consumedAt.value < t.grants[g].expiresAt
    && ActionFits(t.trail[k], t.grants[g].action, t.grants[g].resource)
  }

  lemma PaysPlain(t: Tables, u: Tables, m: map<int, Id>)
    requires Pays(t, m) && t.trail <= u.trail && PlainStep(t, u)
    ensures Pays(u, m)
  {
    forall k | k in m
      ensures PaidBy(u, k, m[k])
    {
      assert PaidBy(t, k, m[k]) && u.trail[k] == t.trail[k] && GrantKept(t.grants[m[k]], u.grants[m[k]]);
    }
    forall k
      ensures k in m <==> 0 <= k < |u.trail| && IsEffect(u.trail[k])
    {
      assert 0 <= k < |t.trail| ==> u.trail[k] == t.trail[k];
    }
  }

  lemma PaysOne(t: Tables, u: Tables, m: map<int, Id>, now: int, session: Id, action: Critical, resource: Id)
    returns (g: Id)
    requires Pays(t, m) && t.trail <= u.trail && PaidStep(t, u, now, session, action, resource)
    ensures Pays(u, m[|t.trail| := g]) && |t.trail| < |u.trail|
    ensures g in t.grants && Usable(t.grants[g], now, session, action, resource)
  {
    g :| g in t.grants && Usable(t.grants[g], now, session, action, resource)
             && u.grants == t.grants[g := t.grants[g].(consumedAt := Some(now))];
    var n := m[|t.trail| := g];
    forall k | k in n
      ensures 0 <= k < |u.trail| && PaidBy(u, k, n[k])
    {
      if k != |t.trail| {
        assert PaidBy(t, k, m[k]) && u.trail[k] == t.trail[k];
      }
    }
    forall k
      ensures k in n <==> 0 <= k < |u.trail| && IsEffect(u.trail[k])
    {
      assert 0 <= k < |t.trail| ==> u.trail[k] == t.trail[k];
    }
    assert forall k :: k in m ==> PaidBy(t, k, m[k]);
  }

  lemma NothingToPay(catalog: Catalog)
    ensures Pays(EmptyTables(catalog), map[])
  {
  }

  /** Request `n` of the run made the act recorded at `k`, and paid for it with grant `g`,
      then usable, of the session it came from. */
  ghost predicate PaidAt(t: Tables, run: seq<Action>, k: int, g: Id, n: nat) {
    && n < |run|
    && var before := Run(t, run[..n]);
       && k == |before.trail| < |Run(t, run[..n + 1]).trail|
       && Charged(before, run[n].request).Some?
       && var (session, action, resource) := Charged(before, run[n].request).value;
          && g in before.grants && before.grants[g].session == session && before.grants[g].action == action
          && before.grants[g].resource == resource && before.grants[g].consumedAt.None?
          && run[n].env.now < before.grants[g].expiresAt
  }

  ghost predicate IsPaid(t: Tables, run: seq<Action>, k: int, g: Id) { exists n: nat :: PaidAt(t, run, k, g, n) }

  ghost predicate PaidFor(t: Tables, run: seq<Action>, m: map<int, Id>) {
    forall k :: k in m ==> IsPaid(t, run, k, m[k])
  }

  lemma PaidAtStays(t: Tables, run: seq<Action>, k: int, g: Id, n: nat)
    requires run != [] && PaidAt(t, run[..|run| - 1], k, g, n)
    ensures PaidAt(t, run, k, g, n)
  {
    var init := run[..|run| - 1];
    assert init[..n] == run[..n] && init[..n + 1] == run[..n + 1];
    hide Run, Charged;
  }

  lemma PaidStays(t: Tables, run: seq<Action>, m: map<int, Id>)
    requires run != [] && PaidFor(t, run[..|run| - 1], m)
    ensures PaidFor(t, run, m)
  {
    hide PaidAt;
    forall k | k in m
      ensures IsPaid(t, run, k, m[k])
    {
      assert IsPaid(t, run[..|run| - 1], k, m[k]);
      var n: nat :| PaidAt(t, run[..|run| - 1], k, m[k], n);
      PaidAtStays(t, run, k, m[k], n);
    }
  }

  lemma PaidMore(t: Tables, run: seq<Action>, m: map<int, Id>, g: Id)
    requires run != [] && PaidFor(t, run[..|run| - 1], m)
    requires PaidAt(t, run, |Run(t, run[..|run| - 1]).trail|, g, |run| - 1)
    ensures PaidFor(t, run, m[|Run(t, run[..|run| - 1]).trail| := g])
  {
    hide PaidAt, Run;
    PaidStays(t, run, m);
    var k := |Run(t, run[..|run| - 1]).trail|;
    assert IsPaid(t, run, k, g);
  }

  lemma LastIsPaid(t: Tables, run: seq<Action>, g: Id)
    requires run != []
    requires var before, last := Run(t, run[..|run| - 1]), run[|run| - 1];
             && Charged(before, last.request).Some?
             && var (session, action, resource) := Charged(before, last.request).value;
                && g in before.grants && Usable(before.grants[g], last.env.now, session, action, resource)
                && |before.trail| < |Apply(before, last.env, last.request).trail|
    ensures PaidAt(t, run, |Run(t, run[..|run| - 1]).trail|, g, |run| - 1)
  {
    assert run[..|run|] == run;
    hide Apply, Charged;
  }

  /** Every publication, signature and ballot of a run consumed a grant of its own, for that
      act on that proposal, given to the session the request came from and before it
      expired. */
  lemma {:induction false} EveryActIsPaid(catalog: Catalog, run: seq<Action>) returns (m: map<int, Id>)
    requires Forest(catalog) && SaneRun(run)
    ensures Pays(Run(EmptyTables(catalog), run), m) && PaidFor(EmptyTables(catalog), run, m)
  {
    hide Valid, SaneRun, Apply, Pays, PlainStep, PaidStep, KeysGrow, Forest, EmptyTables, Sane, PaidFor, Charged;
    if run == [] {
      m := map[];
      NothingToPay(catalog);
      NothingPaid(EmptyTables(catalog));
    } else {
      var init, last := run[..|run| - 1], run[|run| - 1];
      SanePrefix(run);
      var before := EveryActIsPaid(catalog, init);
      EmptyIsValid(catalog);
      RunIsValid(EmptyTables(catalog), init);
      var t := Run(EmptyTables(catalog), init);
      var u := Apply(t, last.env, last.request);
      ApplyRecords(t, last.env, last.request);
      if PlainStep(t, u) {
        PaysPlain(t, u, before);
        PaidStays(EmptyTables(catalog), run, before);
        m := before;
      } else {
        var (session, action, resource) := Charged(t, last.request).value;
        var g := PaysOne(t, u, before, last.env.now, session, action, resource);
        LastIsPaid(EmptyTables(catalog), run, g);
        PaidMore(EmptyTables(catalog), run, before, g);
        m := before[|t.trail| := g];
      }
    }
  }

  lemma NothingPaid(t: Tables)
    ensures PaidFor(t, [], map[])
  {
  }
}
