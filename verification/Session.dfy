/** Session renewal (src/application/session.rs): the stored idle limit is renewed at
    most once a minute, so it lags one renewed on every request. */
module Sessions {
  import opened Prelude

  datatype Policy = Policy(idle: int, absolute: int)

  datatype Session = Session(user: nat, idleExpiresAt: int, absoluteExpiresAt: int, revokedAt: Option<int>)

  const TOUCH_GRANULARITY: int := 60_000

  function Opened(now: int, policy: Policy, user: nat): Session {
    Session(user, Min(now + policy.idle, now + policy.absolute), now + policy.absolute, None)
  }

  predicate Alive(s: Session, now: int) { s.revokedAt.None? && now < s.idleExpiresAt && now < s.absoluteExpiresAt }

  function Renewal(s: Session, now: int, policy: Policy): int { Min(now + policy.idle, s.absoluteExpiresAt) }

  /** The row after a request that resolved. */
  function Resolved(s: Session, now: int, policy: Policy, touch: bool): Session {
    if touch && Renewal(s, now, policy) - s.idleExpiresAt >= TOUCH_GRANULARITY
    then s.(idleExpiresAt := Renewal(s, now, policy))
    else s
  }

  function Revoked(s: Session, now: int): Session { if s.revokedAt.None? then s.(revokedAt := Some(now)) else s }

  // ------------------------------------------------------------ runs

  datatype Request = Request(at: int, touch: bool, revoke: bool)

  function After(s: Session, policy: Policy, r: Request): Session {
    if r.revoke then Revoked(s, r.at) else if Alive(s, r.at) then Resolved(s, r.at, policy, r.touch) else s
  }

  function Run(s: Session, policy: Policy, run: seq<Request>): Session {
    if run == [] then s else After(Run(s, policy, run[..|run| - 1]), policy, run[|run| - 1])
  }

  ghost predicate Forward(start: int, run: seq<Request>) {
    && (forall k :: 0 <= k < |run| ==> start <= run[k].at)
    && forall k, l :: 0 <= k < l < |run| ==> run[k].at <= run[l].at
  }

  function LastAt(start: int, run: seq<Request>): int { if run == [] then start else run[|run| - 1].at }

  lemma ForwardPrefix(start: int, run: seq<Request>)
    requires Forward(start, run) && run != []
    ensures Forward(start, run[..|run| - 1]) && LastAt(start, run[..|run| - 1]) <= run[|run| - 1].at
  {
    var init := run[..|run| - 1];
    assert forall k :: 0 <= k < |init| ==> init[k] == run[k];
  }

  lemma {:induction false} RevokedForEver(s: Session, policy: Policy, run: seq<Request>)
    requires s.revokedAt.Some?
    ensures Run(s, policy, run) == s && forall now :: !Alive(Run(s, policy, run), now)
  {
    if run != [] {
      RevokedForEver(s, policy, run[..|run| - 1]);
    }
  }

  // ------------------------------------------------------------ behind the last request

  /** The limit the last touching request that was served would have given. */
  function Promised(s: Session, policy: Policy, run: seq<Request>): int {
    if run == [] then s.idleExpiresAt
    else
      var init, r := run[..|run| - 1], run[|run| - 1];
      var before := Run(s, policy, init);
      if !r.revoke && Alive(before, r.at) && r.touch then Renewal(before, r.at, policy) else Promised(s, policy, init)
  }

  /** Nothing that comes later can find the promised limit beyond the next renewal. */
  ghost predicate Lagging(s: Session, promised: int, policy: Policy, now: int) {
    && s.idleExpiresAt <= promised < s.idleExpiresAt + TOUCH_GRANULARITY
    && promised <= s.absoluteExpiresAt && promised <= now + policy.idle
  }

  lemma {:induction false} LagsOverRun(start: int, policy: Policy, user: nat, run: seq<Request>)
    requires Forward(start, run)
    ensures var s := Opened(start, policy, user);
            && Lagging(Run(s, policy, run), Promised(s, policy, run), policy, LastAt(start, run))
            && Run(s, policy, run).absoluteExpiresAt == start + policy.absolute
  {
    if run != [] {
      ForwardPrefix(start, run);
      LagsOverRun(start, policy, user, run[..|run| - 1]);
    }
  }

  /** The stored limit is earlier than the last request served plus the idle time by less
      than a minute, and never later. */
  lemma LagsTheLastRequest(start: int, policy: Policy, user: nat, run: seq<Request>)
    requires Forward(start, run)
    ensures var first := Opened(start, policy, user);
            var s, promised := Run(first, policy, run), Promised(first, policy, run);
            && s.idleExpiresAt <= promised < s.idleExpiresAt + TOUCH_GRANULARITY
            && promised <= s.absoluteExpiresAt == start + policy.absolute
  {
    LagsOverRun(start, policy, user, run);
  }

  // ------------------------------------------------------------ against an ideal session

  /** A session that renews on every touching request it resolves itself. */
  function IdealAfter(s: Session, policy: Policy, r: Request): Session {
    if r.revoke then Revoked(s, r.at)
    else if Alive(s, r.at) && r.touch then s.(idleExpiresAt := Renewal(s, r.at, policy))
    else s
  }

  function IdealRun(s: Session, policy: Policy, run: seq<Request>): Session {
    if run == [] then s else IdealAfter(IdealRun(s, policy, run[..|run| - 1]), policy, run[|run| - 1])
  }

  /** The same session up to the idle limit, which the ideal one has no earlier. */
  ghost predicate Behind(s: Session, ideal: Session, policy: Policy, now: int) {
    && s == ideal.(idleExpiresAt := s.idleExpiresAt)
    && s.idleExpiresAt <= ideal.idleExpiresAt <= ideal.absoluteExpiresAt
    && ideal.idleExpiresAt <= now + policy.idle
  }

  predicate Close(s: Session, ideal: Session) { ideal.idleExpiresAt < s.idleExpiresAt + TOUCH_GRANULARITY }

  /** The request is a navigation after the stored limit and before the ideal one, and a
      renewal would have gained a minute. */
  predicate Lost(s: Session, ideal: Session, policy: Policy, r: Request) {
    && !r.revoke && r.touch && !Alive(s, r.at) && Alive(ideal, r.at)
    && Renewal(s, r.at, policy) - s.idleExpiresAt >= TOUCH_GRANULARITY
  }

  /** With an idle time of a minute or more a lost request is any navigation between the
      two limits, but for the last minute before the absolute one. */
  lemma LostBetween(s: Session, ideal: Session, policy: Policy, now: int, r: Request)
    requires Behind(s, ideal, policy, now) && s.revokedAt.None? && policy.idle >= TOUCH_GRANULARITY
    ensures Lost(s, ideal, policy, r) <==>
            && !r.revoke && r.touch && s.idleExpiresAt <= r.at < ideal.idleExpiresAt
            && s.idleExpiresAt + TOUCH_GRANULARITY <= s.absoluteExpiresAt
  {
  }

  lemma {:induction false} NeverLater(start: int, policy: Policy, user: nat, run: seq<Request>)
    requires Forward(start, run)
    ensures var first := Opened(start, policy, user);
            && Behind(Run(first, policy, run), IdealRun(first, policy, run), policy, LastAt(start, run))
            && Run(first, policy, run).absoluteExpiresAt == start + policy.absolute
  {
    if run != [] {
      ForwardPrefix(start, run);
      NeverLater(start, policy, user, run[..|run| - 1]);
    }
  }

  ghost predicate LostAt(first: Session, policy: Policy, run: seq<Request>, k: nat) {
    k < |run| && Lost(Run(first, policy, run[..k]), IdealRun(first, policy, run[..k]), policy, run[k])
  }

  ghost predicate CloseAt(first: Session, policy: Policy, run: seq<Request>, n: nat) {
    n <= |run| ==> Close(Run(first, policy, run[..n]), IdealRun(first, policy, run[..n]))
  }

  /** One request keeps the two limits within a minute exactly when it is not lost. */
  lemma StaysCloseIff(s: Session, ideal: Session, policy: Policy, now: int, r: Request)
    requires Behind(s, ideal, policy, now) && Close(s, ideal) && now <= r.at
    ensures Close(After(s, policy, r), IdealAfter(ideal, policy, r)) <==> !Lost(s, ideal, policy, r)
  {
  }

  lemma ForwardCut(start: int, run: seq<Request>, n: nat)
    requires Forward(start, run) && n < |run|
    ensures Forward(start, run[..n]) && LastAt(start, run[..n]) <= run[n].at
    ensures run[..n + 1][..n] == run[..n]
  {
  }

  lemma OneMoreRequest(first: Session, policy: Policy, run: seq<Request>, n: nat)
    requires n < |run|
    ensures Run(first, policy, run[..n + 1]) == After(Run(first, policy, run[..n]), policy, run[n])
    ensures IdealRun(first, policy, run[..n + 1]) == IdealAfter(IdealRun(first, policy, run[..n]), policy, run[n])
  {
    assert run[..n + 1][..n] == run[..n];
  }

  lemma {:induction false} CloseUntil(start: int, policy: Policy, user: nat, run: seq<Request>, n: nat)
    requires Forward(start, run) && n <= |run|
    requires var first := Opened(start, policy, user); forall k: nat :: k < n ==> !LostAt(first, policy, run, k)
    ensures CloseAt(Opened(start, policy, user), policy, run, n)
  {
    var first := Opened(start, policy, user);
    if n > 0 {
      CloseUntil(start, policy, user, run, n - 1);
      ForwardCut(start, run, n - 1);
      NeverLater(start, policy, user, run[..n - 1]);
      OneMoreRequest(first, policy, run, n - 1);
      assert !LostAt(first, policy, run, n - 1);
      StaysCloseIff(Run(first, policy, run[..n - 1]), IdealRun(first, policy, run[..n - 1]), policy,
                    LastAt(start, run[..n - 1]), run[n - 1]);
    }
  }

  lemma FirstLost(first: Session, policy: Policy, run: seq<Request>) returns (k: nat)
    requires exists k: nat :: LostAt(first, policy, run, k)
    ensures LostAt(first, policy, run, k) && forall m: nat :: m < k ==> !LostAt(first, policy, run, m)
  {
    k :| LostAt(first, policy, run, k);
    while exists m: nat :: m < k && LostAt(first, policy, run, m)
      invariant LostAt(first, policy, run, k)
      decreases k
    {
      var m: nat :| m < k && LostAt(first, policy, run, m);
      k := m;
    }
  }

  /** With a clock that does not go back the stored limit is never later than the ideal
      one, and neither passes the absolute limit. It is earlier by less than a minute all
      along exactly when no request is lost. */
  lemma LagIsBoundedIff(start: int, policy: Policy, user: nat, run: seq<Request>)
    requires Forward(start, run)
    ensures var first := Opened(start, policy, user);
            && Run(first, policy, run).idleExpiresAt <= IdealRun(first, policy, run).idleExpiresAt
            && IdealRun(first, policy, run).idleExpiresAt <= start + policy.absolute
            && ((forall n: nat :: CloseAt(first, policy, run, n)) <==>
                  (forall k: nat :: !LostAt(first, policy, run, k)))
  {
    var first := Opened(start, policy, user);
    NeverLater(start, policy, user, run);
    hide Run, IdealRun, Lost, Close;
    if forall k: nat :: !LostAt(first, policy, run, k) {
      forall n: nat | n <= |run|
        ensures CloseAt(first, policy, run, n)
      {
        CloseUntil(start, policy, user, run, n);
      }
    } else {
      var k := FirstLost(first, policy, run);
      CloseUntil(start, policy, user, run, k);
      ForwardCut(start, run, k);
      NeverLater(start, policy, user, run[..k]);
      OneMoreRequest(first, policy, run, k);
      StaysCloseIff(Run(first, policy, run[..k]), IdealRun(first, policy, run[..k]), policy, LastAt(start, run[..k]),
                    run[k]);
      assert !CloseAt(first, policy, run, k + 1);
    }
  }

  /** A navigation just after the limit that a renewal short of a minute left unmoved is
      lost: the ideal session lives on, the stored one has ended. */
  lemma LostRequest(user: nat)
    ensures var policy := Policy(900_000, 28_800_000);
            var first := Opened(0, policy, user);
            var run := [Request(59_000, true, false), Request(930_000, true, false)];
            && Forward(0, run) && LostAt(first, policy, run, 1)
            && Run(first, policy, run).idleExpiresAt == 900_000
            && IdealRun(first, policy, run).idleExpiresAt == 1_830_000
  {
    var policy := Policy(900_000, 28_800_000);
    var first := Opened(0, policy, user);
    var a, b := Request(59_000, true, false), Request(930_000, true, false);
    assert [a, b][..1] == [a] && [a][..0] == [];
    assert Run(first, policy, [a]) == first;
    assert IdealRun(first, policy, [a]) == first.(idleExpiresAt := 959_000);
  }

  // ------------------------------------------------------------ the stored sessions

  datatype Account = Missing | Blocked | Usable

  class Store {
    var rows: map<string, Session>

    constructor ()
      ensures rows == map[]
    {
      rows := map[];
    }

    method Create(now: int, policy: Policy, user: nat, hash: string)
      requires hash !in rows
      modifies this
      ensures rows == old(rows)[hash := Session(user, Min(now + policy.idle, now + policy.absolute),
                                                now + policy.absolute, None)]
      ensures rows[hash] == Opened(now, policy, user) && rows[hash].idleExpiresAt <= rows[hash].absoluteExpiresAt
    {
      var absolute := now + policy.absolute;
      var idle := Min(now + policy.idle, absolute);
      rows := rows[hash := Session(user, idle, absolute, None)];
    }

    /** Expired and revoked sessions fail, unknown ones and accounts give nothing; only a
        touching request that gains a minute writes. */
    method Resolve(now: int, policy: Policy, hash: string, touch: bool, account: Account)
      returns (r: Result<Option<nat>>)
      modifies this
      ensures hash !in old(rows) ==> r == Ok(None) && rows == old(rows)
      ensures hash in old(rows) ==>
                var s := old(rows)[hash];
                if s.revokedAt.Some? || now >= s.idleExpiresAt || now >= s.absoluteExpiresAt then
                  r == Err(SessionExpired) && rows == old(rows)
                else
                  match account
                  case Missing => r == Ok(None) && rows == old(rows)
                  case Blocked => r == Err(Forbidden) && rows == old(rows)
                  case Usable =>
                    var renewed := Min(now + policy.idle, s.absoluteExpiresAt);
                    && r == Ok(Some(s.user))
                    && rows == (if touch && renewed - s.idleExpiresAt >= 60_000
                                then old(rows)[hash := s.(idleExpiresAt := renewed)] else old(rows))
                    && hash in rows && rows[hash] == Resolved(s, now, policy, touch)
    {
      if hash !in rows {
        return Ok(None);
      }
      var s := rows[hash];
      if s.revokedAt.Some? || now >= s.idleExpiresAt || now >= s.absoluteExpiresAt {
        return Err(SessionExpired);
      }
      match account {
        case Missing => return Ok(None);
        case Blocked => return Err(Forbidden);
        case Usable =>
      }
      var newIdle := Min(now + policy.idle, s.absoluteExpiresAt);
      if touch && newIdle - s.idleExpiresAt >= TOUCH_GRANULARITY {
        if rows[hash].revokedAt.None? && rows[hash].idleExpiresAt > now {
          rows := rows[hash := rows[hash].(idleExpiresAt := newIdle)];
        }
      }
      r := Ok(Some(s.user));
    }

    method Revoke(now: int, hash: string)
      modifies this
      ensures rows == if hash in old(rows) then old(rows)[hash := Revoked(old(rows)[hash], now)] else old(rows)
      ensures hash in old(rows) ==>
                rows[hash] == if old(rows)[hash].revokedAt.Some? then old(rows)[hash]
                              else old(rows)[hash].(revokedAt := Some(now))
    {
      if hash in rows {
        if rows[hash].revokedAt.None? {
          rows := rows[hash := rows[hash].(revokedAt := Some(now))];
        }
      }
    }
  }
}
