/** Persisted sliding-window limits (src/application/debate.rs): a write is refused when
    the window ending now is full. The check sees only that one window, yet every window
    stays within the limit. */
module RateLimit {
  import opened Prelude

  datatype Write = Write(author: nat, at: int)

  /** Writes of an author strictly after `since`. */
  function Recent(log: seq<Write>, author: nat, since: int): nat {
    if log == [] then 0
    else
      var w := log[|log| - 1];
      Recent(log[..|log| - 1], author, since) + if w.author == author && w.at > since then 1 else 0
  }

  /** Writes of an author with `from < at <= to`. */
  function Within(log: seq<Write>, author: nat, from: int, to: int): nat {
    if log == [] then 0
    else
      var w := log[|log| - 1];
      Within(log[..|log| - 1], author, from, to) + if w.author == author && from < w.at <= to then 1 else 0
  }

  function Admit(log: seq<Write>, author: nat, now: int, width: int, limit: nat): Result<seq<Write>> {
    if Recent(log, author, now - width) >= limit then Err(RateLimited) else Ok(log + [Write(author, now)])
  }

  /** Each write was admitted when it was made. */
  ghost predicate Admitted(log: seq<Write>, width: int, limit: nat) {
    log == [] ||
    (var init, w := log[..|log| - 1], log[|log| - 1];
     Admitted(init, width, limit) && Recent(init, w.author, w.at - width) < limit)
  }

  lemma AdmitKeeps(log: seq<Write>, author: nat, now: int, width: int, limit: nat)
    requires Admitted(log, width, limit) && Admit(log, author, now, width, limit).Ok?
    ensures Admitted(Admit(log, author, now, width, limit).value, width, limit)
  {
    assert (log + [Write(author, now)])[..|log|] == log;
  }

  lemma {:induction false} WithinIsRecent(log: seq<Write>, author: nat, from: int, to: int)
    ensures Within(log, author, from, to) <= Recent(log, author, from)
  {
    if log != [] {
      WithinIsRecent(log[..|log| - 1], author, from, to);
    }
  }

  lemma {:induction false} NarrowerHoldsFewer(log: seq<Write>, author: nat, a: int, b: int)
    requires a <= b
    ensures Recent(log, author, b) <= Recent(log, author, a)
  {
    if log != [] {
      NarrowerHoldsFewer(log[..|log| - 1], author, a, b);
    }
  }

  /** No window of that width ever holds more than the limit, wherever it is placed and
      however the clock jumped: the last write of a window was checked against a window
      that contained all its earlier ones. */
  lemma {:induction false} EveryWindowIsWithin(log: seq<Write>, author: nat, to: int, width: int, limit: nat)
    requires Admitted(log, width, limit)
    ensures Within(log, author, to - width, to) <= limit
  {
    if log != [] {
      var init, w := log[..|log| - 1], log[|log| - 1];
      EveryWindowIsWithin(init, author, to, width, limit);
      if w.author == author && to - width < w.at <= to {
        WithinIsRecent(init, author, to - width, to);
        NarrowerHoldsFewer(init, author, w.at - width, to - width);
      }
    }
  }

  /** The window is open at its start: an interval that counts both its ends can hold a
      full allowance at each. */
  lemma ClosedWindowHoldsTwice(author: nat, at: int, width: nat)
    requires width > 0
    ensures var log := [Write(author, at), Write(author, at + width)];
            Admitted(log, width, 1) && Within(log, author, at - 1, at + width) == 2
  {
    var one := [Write(author, at)];
    var log := [Write(author, at), Write(author, at + width)];
    assert one[..0] == [] && log[..1] == one;
    assert Within(one, author, at - 1, at + width) == 1;
    assert Recent(one, author, at) == 0;
  }
}
