/** Shared vocabulary: optional values, results with the application's error
    classes, and a few facts about finite sets. */
module Prelude {
  datatype Option<+T> = None | Some(value: T)

  /** Why a request that clashes with stored data was refused. */
  datatype Clash =
    | EmptyElectorate | NoSetup | SetupExists | SetupInProgress | NotProposed | Quota
    | AlreadySigned | NotSigned | AlreadyVoted | KeyReused
    | NameTaken | Managed | Attached | AlreadyAttached | Lockout
    | ChainEmpty | ChainBroken | RemovedComment | VisibleComment | DebateLocked

  datatype Error =
    | NotFound | Forbidden | PhaseClosed | ReauthRequired | FeatureDisabled
    | Validation | RateLimited | SessionExpired | Internal
    | Conflict(clash: Clash)

  datatype Result<+T> = Ok(value: T) | Err(error: Error) {
    predicate IsFailure() { Err? }
    function PropagateFailure<U>(): Result<U>
      requires Err?
    {
      Err(error)
    }
    function Extract(): T
      requires Ok?
    {
      value
    }
    function Optional(): Option<T> { if Ok? then Some(value) else None }
  }

  /** Outcome of a guard: a failure propagates as the result of the enclosing function. */
  datatype Guard = Pass | Fail(error: Error) {
    predicate IsFailure() { Fail? }
    function PropagateFailure<U>(): Result<U>
      requires Fail?
    {
      Err(error)
    }
  }

  function Require(condition: bool, error: Error): Guard {
    if condition then Pass else Fail(error)
  }

  function Min(a: int, b: int): int { if a <= b then a else b }
  function Max(a: int, b: int): int { if a <= b then b else a }

  lemma SubsetSize<T>(a: set<T>, b: set<T>)
    requires a <= b
    ensures |a| <= |b|
    ensures |a| == |b| ==> a == b
  {
    assert b == a + (b - a);
    assert |b| == |a| + |b - a|;
  }

  predicate IsLeast(s: set<nat>, m: nat) { m in s && forall n :: n in s ==> m <= n }

  predicate IsGreatest(s: set<nat>, m: nat) { m in s && forall n :: n in s ==> n <= m }

  lemma LeastExists(s: set<nat>)
    requires s != {}
    ensures exists m :: IsLeast(s, m)
  {
    var x :| x in s;
    if s == {x} {
      assert IsLeast(s, x);
    } else {
      LeastExists(s - {x});
      var m :| IsLeast(s - {x}, m);
      assert IsLeast(s, if x < m then x else m) by {
        assert forall n :: n in s ==> n == x || n in s - {x};
      }
    }
  }

  lemma GreatestExists(s: set<nat>)
    requires s != {}
    ensures exists m :: IsGreatest(s, m)
  {
    var x :| x in s;
    if s == {x} {
      assert IsGreatest(s, x);
    } else {
      GreatestExists(s - {x});
      var m :| IsGreatest(s - {x}, m);
      assert IsGreatest(s, if x > m then x else m) by {
        assert forall n :: n in s ==> n == x || n in s - {x};
      }
    }
  }
}
